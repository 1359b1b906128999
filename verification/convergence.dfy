/** A leader with the highest term takes every node over in two heartbeats, if no election timer fires. */
module Convergence {
  import opened Types
  import opened Protocol
  import opened System
  import opened Invariants
  import opened Elections
  import opened Leadership

  /** No election timer fires: neither a follower's, nor a candidate's inside or between its handlers. */
  predicate NoTimer(a: Action) {
    a.Local? ==> !a.input.Timer? && !a.input.CutCandidate? && !a.input.CutWin?
  }

  ghost predicate NoTimers(acts: seq<Action>) {
    forall a | a in acts :: NoTimer(a)
  }

  /** A timer that has fired already shows as a candidate that has not begun its candidacy. */
  predicate Pending(n: Node) {
    n.loop.Idle? && n.role == Candidate
  }

  function Heartbeat(l: NodeID, n: NodeID, t: nat): Message {
    Message(l, n, t, LeaderHeartbeat)
  }

  /** How many of the leader's heartbeats of term `t` reached `n`, whenever they were sent. */
  function Heard(acts: seq<Action>, l: NodeID, n: NodeID, t: nat): nat {
    if acts == [] then 0
    else
      var k := |acts| - 1;
      Heard(acts[..k], l, n, t) + (if acts[k] == Local(n, Receive(Heartbeat(l, n, t))) then 1 else 0)
  }

  /** The leader `l` of term `t` dominates: nobody has a higher term, or is about to begin one. */
  ghost predicate Dominates(s: State, l: NodeID, t: nat) {
    l in s.nodes && s.nodes[l].role == Leader && s.nodes[l].term == t &&
    forall i | i in s.nodes :: s.nodes[i].term <= t && (Pending(s.nodes[i]) ==> s.nodes[i].term < t)
  }

  predicate Joined(n: Node, t: nat) {
    n.role == Follower && n.term == t
  }

  predicate Settled(n: Node, l: NodeID, t: nat) {
    Joined(n, t) && n.currentLeader == Some(l)
  }

  /** What the run so far has achieved at `n`, by the number of heartbeats heard. */
  predicate Progress(n: Node, l: NodeID, t: nat, heard: nat) {
    (heard >= 1 ==> Joined(n, t)) && (heard >= 2 ==> Settled(n, l, t))
  }

  /** Nobody but `l` leads in term `t`. */
  ghost predicate SoleLeader(s: State, l: NodeID, t: nat) {
    forall i | i in s.nodes && s.nodes[i].role == Leader && s.nodes[i].term == t :: i == l
  }

  /** Whoever sent a heartbeat of the highest term still leads in it. */
  lemma DominatedMessage(s: State, l: NodeID, t: nat, m: Message)
    requires Inv(s) && SendersLead(s) && SoleLeader(s, l, t) && Dominates(s, l, t) && m in s.sent
    ensures m.term <= t && (m.kind == LeaderHeartbeat && m.term == t ==> m.from == l)
  {
    if m.kind == LeaderHeartbeat && m.term == t { assert StillLeads(s, m.from, t); }
  }

  /** A message that the node takes, whole or cut, carries no term above `t`. */
  predicate TakesUpTo(input: Input, t: nat) {
    input.Receive? || input.CutLeader? ==> input.msg.term <= t
  }

  /** What a step of a node that knows no term above `t` keeps. */
  ghost predicate Calm(n: Node, n': Node, t: nat) {
    n'.term <= t && (Pending(n') ==> n'.term < t) &&
    (n.role == Leader && n.term == t ==> n'.role == Leader && n'.term == t)
  }

  lemma CalmReceive(n: Node, m: Message, t: nat)
    requires CanStep(n, Receive(m)) && LoopMatches(n) && m.term <= t && n.term <= t
    ensures Calm(n, Step(n, Receive(m)).node, t)
  {
    match m.kind
    case VoteRequest =>
    case _ =>
  }

  lemma CalmCut(n: Node, m: Message, writes: nat, members: set<NodeID>, t: nat)
    requires CanStep(n, CutLeader(m, writes, members)) && LoopMatches(n) && m.term <= t && n.term <= t
    ensures Calm(n, Step(n, CutLeader(m, writes, members)).node, t)
  {
    match m.kind
    case VoteRequest =>
    case _ =>
  }

  /** One calm step of a node that knows no message above `t`. */
  lemma CalmStep(n: Node, input: Input, t: nat)
    requires CanStep(n, input) && LoopMatches(n) && NoTimer(Local(n.id, input)) && TakesUpTo(input, t)
    requires n.term <= t && (Pending(n) ==> n.term < t)
    ensures Calm(n, Step(n, input).node, t)
  {
    match input
    case Receive(m) => CalmReceive(n, m, t);
    case CutLeader(m, k, ms) => CalmCut(n, m, k, ms, t);
    case _ =>
  }

  lemma CalmJoined(n: Node, input: Input, l: NodeID, t: nat)
    requires CanStep(n, input) && LoopMatches(n) && NoTimer(Local(n.id, input)) && Joined(n, t)
    requires TakesUpTo(input, t)
    requires input.Receive? && input.msg.kind == LeaderHeartbeat && input.msg.term == t ==> input.msg.from == l
    ensures var n' := Step(n, input).node;
      Joined(n', t) && (Settled(n, l, t) ==> Settled(n', l, t)) &&
      (input == Receive(Heartbeat(l, n.id, t)) ==> Settled(n', l, t))
  {
    match input
    case Receive(m) =>
    case _ =>
  }

  /** The first heartbeat makes any other node a follower in the leader's term; the node names the
      new leader at once exactly when it was not itself a leader. */
  lemma FirstHeartbeat(n: Node, l: NodeID, t: nat)
    requires CanStep(n, Receive(Heartbeat(l, n.id, t))) && LoopMatches(n)
    requires n.term <= t && (n.role == Leader ==> n.term < t)
    ensures var n' := Step(n, Receive(Heartbeat(l, n.id, t))).node;
      Joined(n', t) && (Settled(n', l, t) <==> n.role != Leader || n.currentLeader == Some(l))
  {
  }

  /** What a dominated node can be and can receive. */
  ghost predicate Dominated(n: Node, input: Input, l: NodeID, t: nat) {
    n.term <= t && (n.id != l && n.role == Leader ==> n.term < t) &&
    TakesUpTo(input, t) &&
    (input.Receive? && input.msg.kind == LeaderHeartbeat && input.msg.term == t ==> input.msg.from == l)
  }

  /** One enabled step of `n`, in a state dominated by `l`, adds to its progress. */
  lemma StepProgress(n: Node, input: Input, l: NodeID, t: nat, heard: nat)
    requires CanStep(n, input) && LoopMatches(n) && NoTimer(Local(n.id, input)) && Progress(n, l, t, heard)
    requires Dominated(n, input, l, t) && n.id != l
    ensures Progress(Step(n, input).node, l, t, heard + (if input == Receive(Heartbeat(l, n.id, t)) then 1 else 0))
  {
    if heard >= 1 {
      CalmJoined(n, input, l, t);
    } else if input == Receive(Heartbeat(l, n.id, t)) {
      FirstHeartbeat(n, l, t);
    }
  }

  lemma TakenUpTo(s: State, i: NodeID, input: Input, l: NodeID, t: nat)
    requires Inv(s) && Dominates(s, l, t) && Enabled(s, Local(i, input))
    ensures TakesUpTo(input, t)
  {
    if input.Receive? || input.CutLeader? { TakenWasSent(s, i, input, input.msg); }
  }

  lemma StepDominated(s: State, i: NodeID, input: Input, l: NodeID, t: nat)
    requires Inv(s) && SendersLead(s) && SoleLeader(s, l, t) && Dominates(s, l, t)
    requires Enabled(s, Local(i, input))
    ensures Dominated(s.nodes[i], input, l, t) && LoopMatches(s.nodes[i]) && s.nodes[i].id == i
  {
    TakenUpTo(s, i, input, l, t);
    if input.Receive? {
      TakenWasSent(s, i, input, input.msg);
      DominatedMessage(s, l, t, input.msg);
    }
  }

  lemma KeepProgress(s: State, a: Action, l: NodeID, t: nat, n: NodeID, heard: nat)
    requires Inv(s) && SendersLead(s) && SoleLeader(s, l, t) && Dominates(s, l, t) && n in s.nodes && n != l
    requires Enabled(s, a) && NoTimer(a) && Progress(s.nodes[n], l, t, heard)
    ensures n in Apply(s, a).nodes
    ensures Progress(Apply(s, a).nodes[n], l, t,
                     heard + (if a == Local(n, Receive(Heartbeat(l, n, t))) then 1 else 0))
  {
    if a.Local? {
      if a.node == n {
        StepDominated(s, n, a.input, l, t);
        StepProgress(s.nodes[n], a.input, l, t, heard);
      }
      LocalMoves(s, a.node, a.input);
    }
  }

  lemma MoveDominates(s: State, u: State, l: NodeID, t: nat, i: NodeID, n: Node)
    requires Dominates(s, l, t) && i in s.nodes && u.nodes == s.nodes[i := n]
    requires n.term <= t && (Pending(n) ==> n.term < t)
    requires i == l ==> n.role == Leader && n.term == t
    ensures Dominates(u, l, t)
  {
  }

  /** Dominance needs no quorum: nobody hears of a higher term. */
  lemma KeepDominates(s: State, a: Action, l: NodeID, t: nat)
    requires Inv(s) && Dominates(s, l, t) && Enabled(s, a) && NoTimer(a)
    ensures Dominates(Apply(s, a), l, t)
  {
    if a.Local? {
      var n := s.nodes[a.node];
      TakenUpTo(s, a.node, a.input, l, t);
      CalmStep(n, a.input, t);
      LocalMoves(s, a.node, a.input);
      MoveDominates(s, Apply(s, a), l, t, a.node, Step(n, a.input).node);
    }
  }

  lemma {:induction false} RunDominates(s: State, acts: seq<Action>, l: NodeID, t: nat)
    requires Inv(s) && Dominates(s, l, t) && NoTimers(acts) && Run(s, acts).Some?
    ensures Inv(Run(s, acts).value) && Dominates(Run(s, acts).value, l, t)
    decreases |acts|
  {
    if acts != [] {
      var k := |acts| - 1;
      assert acts[k] in acts;
      RunDominates(s, acts[..k], l, t);
      KeepDominates(Run(s, acts[..k]).value, acts[k], l, t);
      KeepInv(Run(s, acts[..k]).value, acts[k]);
    }
  }

  /** Leaders of the highest term stay, so a sole leader was the sole one before. */
  lemma SoleBefore(s: State, a: Action, l: NodeID, t: nat)
    requires Inv(s) && Dominates(s, l, t) && Enabled(s, a) && NoTimer(a) && SoleLeader(Apply(s, a), l, t)
    ensures SoleLeader(s, l, t)
  {
    if a.Local? {
      TakenUpTo(s, a.node, a.input, l, t);
      CalmStep(s.nodes[a.node], a.input, t);
      LocalMoves(s, a.node, a.input);
    }
    forall i | i in s.nodes && s.nodes[i].role == Leader && s.nodes[i].term == t ensures i == l {
      assert Apply(s, a).nodes[i].role == Leader && Apply(s, a).nodes[i].term == t;
    }
  }

  lemma {:induction false} RunProgress(s: State, acts: seq<Action>, l: NodeID, t: nat, n: NodeID)
    requires Inv(s) && SendersLead(s) && Dominates(s, l, t) && n in s.nodes && n != l
    requires NoTimers(acts) && Run(s, acts).Some? && SoleLeader(Run(s, acts).value, l, t)
    ensures var u := Run(s, acts).value;
      SendersLead(u) && n in u.nodes && Progress(u.nodes[n], l, t, Heard(acts, l, n, t))
    decreases |acts|
  {
    if acts != [] {
      var k := |acts| - 1;
      var u, a := Run(s, acts[..k]).value, acts[k];
      assert a in acts;
      RunDominates(s, acts[..k], l, t);
      SoleBefore(u, a, l, t);
      RunProgress(s, acts[..k], l, t, n);
      KeepSenders(u, a);
      KeepProgress(u, a, l, t, n, Heard(acts[..k], l, n, t));
    }
  }

  /** Convergence: if in the end nobody else leads in the highest term, then whatever was delivered,
      lost, cut or reordered, two heartbeats of its leader made every other node a follower in its term
      that names it; one heartbeat already made it a follower in that term. */
  lemma TwoHeartbeatsConverge(members: map<NodeID, set<NodeID>>, before: seq<Action>, acts: seq<Action>,
                              s: State, u: State, l: NodeID, t: nat)
    requires Run(Init(members), before) == Some(s) && Run(s, acts) == Some(u) && NoTimers(acts)
    requires Dominates(s, l, t) && SoleLeader(u, l, t)
    ensures u.nodes.Keys == s.nodes.Keys && u.nodes[l].role == Leader && u.nodes[l].term == t
    ensures forall n | n in s.nodes && n != l && Heard(acts, l, n, t) >= 1 :: Joined(u.nodes[n], t)
    ensures forall n | n in s.nodes && n != l && Heard(acts, l, n, t) >= 2 :: Settled(u.nodes[n], l, t)
  {
    FromInit(members, before, s);
    RunGrows(s, acts);
    forall n | n in s.nodes && n != l
      ensures Progress(u.nodes[n], l, t, Heard(acts, l, n, t))
    {
      RunProgress(s, acts, l, t, n);
    }
    RunDominates(s, acts, l, t);
  }

  /** No leader's handler is torn into term `t`; tears into other terms are harmless here. */
  ghost predicate NoTearInto(tears: set<Tear>, t: nat) {
    forall x | x in tears :: x.term != t
  }

  /** A winner of the highest term leads in it alone if and only if no other leader was torn into it. */
  lemma SoleLeaderExactly(s: State, tears: set<Tear>, l: NodeID, t: nat)
    requires Inv(s) && LeaderInv(s, tears) && QuorateWins(s) && Dominates(s, l, t) && Won(s, l, t)
    ensures SoleLeader(s, l, t) <==> NoTearInto(tears, t)
  {
    TearsUnwon(s, tears, l, t);
    forall x | x in tears && x.term == t ensures !SoleLeader(s, l, t) {
      assert StillLeads(s, x.node, t);
    }
    forall i | i in s.nodes && s.nodes[i].role == Leader && s.nodes[i].term == t && NoTearInto(tears, t)
      ensures i == l
    {
      QuorateMeansOneWinner(s);
      assert InOffice(s, tears, s.nodes[i]) && Won(s, i, t);
    }
  }

  /** What holds when the dominant leader's run ends, seen from the start of the whole run. */
  lemma DominatesLater(members: map<NodeID, set<NodeID>>, before: seq<Action>, acts: seq<Action>,
                       s: State, u: State, l: NodeID, t: nat)
    requires Run(Init(members), before) == Some(s) && Run(s, acts) == Some(u) && NoTimers(acts)
    requires Dominates(s, l, t) && Won(s, l, t)
    ensures Inv(u) && LeaderInv(u, Tears(Init(members), before + acts)) && Dominates(u, l, t) && Won(u, l, t)
    ensures u.nodes.Keys == s.nodes.Keys
  {
    FromInit(members, before, s);
    RunConcat(Init(members), before, acts);
    FromInit(members, before + acts, u);
    RunGrows(s, acts);
    RunDominates(s, acts, l, t);
    MoreWins(s, u, l, t);
  }

  lemma SettledMeansSole(s: State, l: NodeID, t: nat)
    requires forall n | n in s.nodes && n != l :: Settled(s.nodes[n], l, t)
    ensures SoleLeader(s, l, t)
  {
  }

  /** Once every other node has heard the winner of the highest term twice, all of them have settled on it
      if and only if no leader's handler was ever torn into that term. */
  lemma ConvergenceExactly(members: map<NodeID, set<NodeID>>, before: seq<Action>, acts: seq<Action>,
                           s: State, u: State, l: NodeID, t: nat)
    requires Run(Init(members), before) == Some(s) && Run(s, acts) == Some(u) && NoTimers(acts)
    requires QuorateWins(u) && Dominates(s, l, t) && Won(s, l, t)
    requires forall n | n in s.nodes && n != l :: Heard(acts, l, n, t) >= 2
    ensures (forall n | n in u.nodes && n != l :: Settled(u.nodes[n], l, t)) <==>
            NoTearInto(Tears(Init(members), before + acts), t)
  {
    DominatesLater(members, before, acts, s, u, l, t);
    SoleLeaderExactly(u, Tears(Init(members), before + acts), l, t);
    if SoleLeader(u, l, t) {
      TwoHeartbeatsConverge(members, before, acts, s, u, l, t);
    } else if forall n | n in u.nodes && n != l :: Settled(u.nodes[n], l, t) {
      SettledMeansSole(u, l, t);
    }
  }
}
