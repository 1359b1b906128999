/** Over whole runs: which votes are answered, what `voted_for` remembers, and where terms come from. */
module Votes {
  import opened Types
  import opened Protocol
  import opened System
  import opened Invariants
  import opened Elections
  import opened Handlers

  /** A vote-request handler cut after the vote and before the answer. */
  predicate Mute(n: Node, input: Input) {
    (input.CutCandidate? || input.CutLeader?) && input.msg.kind == VoteRequest && input.msg.term > n.term &&
    input.writes >= 2
  }

  function MutesOf(s: State, a: Action): set<Vote> {
    if a.Local? && a.node in s.nodes && Mute(s.nodes[a.node], a.input) then
      {Vote(a.node, a.input.msg.term, a.input.msg.from)}
    else {}
  }

  /** The votes whose handlers were cut before they answered. */
  function Mutes(s: State, acts: seq<Action>): set<Vote> {
    if acts == [] then {}
    else
      var k := |acts| - 1;
      match Run(s, acts[..k])
      case None => {}
      case Some(t) => Mutes(s, acts[..k]) + MutesOf(t, acts[k])
  }

  function Grant(v: Vote): Message {
    Message(v.voter, v.candidate, v.term, VoteGranted)
  }

  ghost predicate Answered(s: State, mutes: set<Vote>) {
    mutes <= s.votes &&
    forall v | v in s.votes && v.voter != v.candidate :: Grant(v) in s.sent <==> v !in mutes
  }

  /** One step's vote for another node is answered exactly if its handler was not cut. */
  lemma StepAnswers(n: Node, input: Input)
    requires CanStep(n, input) && LoopMatches(n)
    ensures var e := Step(n, input);
      (e.cast.Some? && !input.Wake? ==>
         (Message(n.id, e.cast.value, e.node.term, VoteGranted) in e.out <==> !Mute(n, input))) &&
      (Mute(n, input) ==> e.cast == Some(input.msg.from) && e.node.term == input.msg.term)
  {
    match input
    case Receive(m) => ReceiveAnswers(n, m);
    case CutCandidate(m, k) => CutCandidatePrefix(n, m, k);
    case CutLeader(m, k, ms) =>
      CutLeaderPrefix(n, m, k, ms);
      ReceiveAnswers(n, m);
    case _ =>
  }

  lemma ReceiveAnswers(n: Node, m: Message)
    requires CanStep(n, Receive(m)) && LoopMatches(n)
    ensures var e := Step(n, Receive(m));
      if m.kind == VoteRequest && m.term > n.term then
        e.cast == Some(m.from) && e.node.term == m.term && Message(n.id, m.from, m.term, VoteGranted) in e.out
      else e.cast == None
  {
    if Stale(n, m) { MessageIgnored(n, m); }
    else if m.kind == VoteRequest { VoteAnswered(n, m); }
    else { HeartbeatObeyed(n, m); }
  }

  /** A vote not yet cast is of a higher term, so no grant of it was sent. */
  lemma NoGrantYet(s: State, v: Vote)
    requires Inv(s) && v.voter in s.nodes && s.nodes[v.voter].term < v.term
    ensures v !in s.votes && Grant(v) !in s.sent
  {
  }

  lemma MoveAnswered(s: State, t: State, i: NodeID, input: Input, e: Effect, mutes: set<Vote>, more: set<Vote>)
    requires Inv(s) && Answered(s, mutes) && Moved(s, t, i, input, e) && Honest(s.nodes[i], e) && s.nodes[i].id == i
    requires input.Wake? && e.cast.Some? ==> e.cast == Some(i)
    requires e.cast.Some? && !input.Wake? ==>
      (Message(i, e.cast.value, e.node.term, VoteGranted) in e.out <==> more == {})
    requires more == {} || (e.cast.Some? && !input.Wake? && more == {Vote(i, e.node.term, e.cast.value)})
    ensures Answered(t, mutes + more)
  {
    forall v | v in t.votes && v.voter != v.candidate ensures Grant(v) in t.sent <==> v !in mutes + more {
      if v in s.votes {
        assert e.cast.Some? ==> v != Vote(i, e.node.term, e.cast.value) && Grant(v) !in e.out;
      } else {
        NoGrantYet(s, v);
      }
    }
  }

  lemma KeepAnswered(s: State, a: Action, mutes: set<Vote>)
    requires Inv(s) && Answered(s, mutes) && Enabled(s, a)
    ensures Answered(Apply(s, a), mutes + MutesOf(s, a))
  {
    if a.Local? {
      var n := s.nodes[a.node];
      LocalMoves(s, a.node, a.input);
      StepHonest(n, a.input);
      StepAnswers(n, a.input);
      MoveAnswered(s, Apply(s, a), a.node, a.input, Step(n, a.input), mutes, MutesOf(s, a));
    }
  }

  lemma {:induction false} RunAnswered(s: State, acts: seq<Action>, mutes: set<Vote>)
    requires Inv(s) && Answered(s, mutes) && Run(s, acts).Some?
    ensures Answered(Run(s, acts).value, mutes + Mutes(s, acts))
    decreases |acts|
  {
    if acts == [] {
      assert mutes + {} == mutes;
    } else {
      var k := |acts| - 1;
      RunAnswered(s, acts[..k], mutes);
      RunInv(s, acts[..k]);
      var t := Run(s, acts[..k]).value;
      KeepAnswered(t, acts[k], mutes + Mutes(s, acts[..k]));
      assert mutes + Mutes(s, acts[..k]) + MutesOf(t, acts[k]) == mutes + Mutes(s, acts);
    }
  }

  /** Over every run, with any handler cut: a vote for another node was answered by a grant if and only if its
      handler was not cut before the answer. */
  lemma VotesAnsweredExactly(members: map<NodeID, set<NodeID>>, acts: seq<Action>, s: State, v: Vote)
    requires Run(Init(members), acts) == Some(s) && v in s.votes && v.voter != v.candidate
    ensures Message(v.voter, v.candidate, v.term, VoteGranted) in s.sent <==> v !in Mutes(Init(members), acts)
  {
    InitInv(members);
    RunAnswered(Init(members), acts, {});
    assert {} + Mutes(Init(members), acts) == Mutes(Init(members), acts);
  }

  /** `voted_for` names the candidate of the node's last vote, if anybody. */
  ghost predicate LastVote(s: State, i: NodeID, c: NodeID) {
    exists v | v in s.votes :: v.voter == i && v.candidate == c &&
      forall w | w in s.votes && w.voter == i :: w.term <= v.term
  }

  ghost predicate Remembers(s: State) {
    forall i | i in s.nodes && s.nodes[i].votedFor.Some? :: LastVote(s, i, s.nodes[i].votedFor.value)
  }

  lemma StepVotedFor(n: Node, input: Input)
    requires CanStep(n, input) && LoopMatches(n)
    ensures var e := Step(n, input);
      if e.cast.Some? then e.node.votedFor == e.cast
      else e.node.votedFor == n.votedFor || e.node.votedFor == None
  {
    match input
    case Wake(ms) => WakesAs(n, ms);
    case Check(ms) => WinsExactly(n, ms);
    case Receive(m) => ReceiveVotedFor(n, m);
    case CutCandidate(m, k) =>
      CutCandidatePrefix(n, m, k);
      ReceiveVotedFor(n, m);
    case CutLeader(m, k, ms) =>
      CutLeaderPrefix(n, m, k, ms);
      ReceiveVotedFor(n, m);
    case _ =>
  }

  lemma ReceiveVotedFor(n: Node, m: Message)
    requires CanStep(n, Receive(m)) && LoopMatches(n)
    ensures var e := Step(n, Receive(m));
      if e.cast.Some? then e.node.votedFor == e.cast && m.kind == VoteRequest
      else e.node.votedFor == n.votedFor || (e.node.votedFor == None && m.kind == LeaderHeartbeat)
  {
    if Stale(n, m) { MessageIgnored(n, m); }
    else if m.kind == VoteRequest { VoteAnswered(n, m); }
    else { HeartbeatObeyed(n, m); }
  }

  lemma NewLastVote(s: State, t: State, i: NodeID, input: Input, e: Effect)
    requires Inv(s) && Moved(s, t, i, input, e) && e.cast.Some? && s.nodes[i].term < e.node.term
    ensures LastVote(t, i, e.cast.value)
  {
    assert Vote(i, e.node.term, e.cast.value) in t.votes;
  }

  lemma OldLastVote(s: State, t: State, i: NodeID, c: NodeID)
    requires LastVote(s, i, c) && s.votes <= t.votes
    requires forall v | v in t.votes && v.voter == i :: v in s.votes
    ensures LastVote(t, i, c)
  {
    var v :| v in s.votes && v.voter == i && v.candidate == c &&
      forall w | w in s.votes && w.voter == i :: w.term <= v.term;
    assert v in t.votes;
  }

  lemma MoveRemembers(s: State, t: State, i: NodeID, input: Input, e: Effect)
    requires Inv(s) && Remembers(s) && Moved(s, t, i, input, e) && Honest(s.nodes[i], e)
    requires if e.cast.Some? then e.node.votedFor == e.cast
             else e.node.votedFor == s.nodes[i].votedFor || e.node.votedFor == None
    ensures Remembers(t)
  {
    forall j | j in t.nodes && t.nodes[j].votedFor.Some? ensures LastVote(t, j, t.nodes[j].votedFor.value) {
      if j == i && e.cast.Some? { NewLastVote(s, t, i, input, e); }
      else { OldLastVote(s, t, j, t.nodes[j].votedFor.value); }
    }
  }

  lemma {:induction false} RunRemembers(s: State, acts: seq<Action>)
    requires Inv(s) && Remembers(s) && Run(s, acts).Some?
    ensures Remembers(Run(s, acts).value)
    decreases |acts|
  {
    if acts != [] {
      var k := |acts| - 1;
      RunRemembers(s, acts[..k]);
      RunInv(s, acts[..k]);
      KeepRemembers(Run(s, acts[..k]).value, acts[k]);
    }
  }

  lemma KeepRemembers(s: State, a: Action)
    requires Inv(s) && Remembers(s) && Enabled(s, a)
    ensures Remembers(Apply(s, a))
  {
    if a.Local? {
      var n := s.nodes[a.node];
      LocalMoves(s, a.node, a.input);
      StepHonest(n, a.input);
      StepVotedFor(n, a.input);
      MoveRemembers(s, Apply(s, a), a.node, a.input, Step(n, a.input));
    } else {
      forall j | j in s.nodes && s.nodes[j].votedFor.Some?
        ensures LastVote(Apply(s, a), j, s.nodes[j].votedFor.value)
      {
        OldLastVote(s, Apply(s, a), j, s.nodes[j].votedFor.value);
      }
    }
  }

  /** Over every run, with any handler cut: whoever `voted_for` names got the node's last vote. */
  lemma VotedForIsLastVote(members: map<NodeID, set<NodeID>>, acts: seq<Action>, s: State, i: NodeID)
    requires Run(Init(members), acts) == Some(s) && i in s.nodes && s.nodes[i].votedFor.Some?
    ensures LastVote(s, i, s.nodes[i].votedFor.value)
  {
    InitInv(members);
    RunRemembers(Init(members), acts);
  }

  /** Somebody stood in this term, or it is the first. */
  ghost predicate Founded(s: State, t: nat) {
    t == 0 || exists c | c in s.begun :: c.term == t
  }

  ghost predicate AllFounded(s: State) {
    (forall i | i in s.nodes :: Founded(s, s.nodes[i].term)) && (forall m | m in s.sent :: Founded(s, m.term))
  }

  /** A node's term moves only when it stands, or to the term of a heartbeat or vote request that it takes. */
  lemma StepTerm(n: Node, input: Input)
    requires CanStep(n, input) && LoopMatches(n)
    ensures var e := Step(n, input);
      e.node.term == n.term || (input.Wake? && e.cast == Some(n.id)) ||
      (Taken(input) != multiset{} && e.node.term == input.msg.term &&
       (input.msg.kind == LeaderHeartbeat || input.msg.kind == VoteRequest))
  {
    match input
    case Wake(ms) => WakesAs(n, ms);
    case Check(ms) => WinsExactly(n, ms);
    case Receive(m) => ReceiveTerm(n, m);
    case CutCandidate(m, k) =>
      CutCandidatePrefix(n, m, k);
      ReceiveTerm(n, m);
    case CutLeader(m, k, ms) =>
      CutLeaderPrefix(n, m, k, ms);
      ReceiveTerm(n, m);
    case _ =>
  }

  lemma ReceiveTerm(n: Node, m: Message)
    requires CanStep(n, Receive(m)) && LoopMatches(n)
    ensures var t := Step(n, Receive(m)).node.term;
      t == n.term || (t == m.term && (m.kind == LeaderHeartbeat || m.kind == VoteRequest))
  {
    if Stale(n, m) { MessageIgnored(n, m); }
    else if m.kind == VoteRequest { VoteAnswered(n, m); }
    else { HeartbeatObeyed(n, m); }
  }

  lemma FoundedOn(s: State, t: State, k: nat)
    requires Founded(s, k) && s.begun <= t.begun
    ensures Founded(t, k)
  {
    if k != 0 {
      var c :| c in s.begun && c.term == k;
      assert c in t.begun;
    }
  }

  lemma MoveFounded(s: State, t: State, i: NodeID, input: Input, e: Effect)
    requires AllFounded(s) && Moved(s, t, i, input, e) && Honest(s.nodes[i], e) && Founded(t, e.node.term)
    ensures AllFounded(t)
  {
    forall j | j in t.nodes ensures Founded(t, t.nodes[j].term) {
      if j != i { FoundedOn(s, t, s.nodes[j].term); }
    }
    forall m | m in t.sent ensures Founded(t, m.term) {
      if m in s.sent { FoundedOn(s, t, m.term); }
    }
  }

  lemma StepFounds(s: State, t: State, i: NodeID, input: Input, e: Effect)
    requires AllFounded(s) && Moved(s, t, i, input, e)
    requires e.node.term == s.nodes[i].term || e.cast == Some(i) ||
             exists m | m in Taken(input) :: m in s.sent && e.node.term == m.term
    ensures Founded(t, e.node.term)
  {
    if e.node.term == s.nodes[i].term { FoundedOn(s, t, e.node.term); }
    else if e.cast == Some(i) { assert Candidacy(i, e.node.term) in t.begun; }
    else { FoundedOn(s, t, e.node.term); }
  }

  lemma KeepFounded(s: State, a: Action)
    requires Inv(s) && AllFounded(s) && Enabled(s, a)
    ensures AllFounded(Apply(s, a))
  {
    if a.Local? {
      var n, t := s.nodes[a.node], Apply(s, a);
      LocalMoves(s, a.node, a.input);
      StepHonest(n, a.input);
      StepTerm(n, a.input);
      if Taken(a.input) != multiset{} {
        assert a.input.msg in Taken(a.input);
        TakenWasSent(s, a.node, a.input, a.input.msg);
      }
      StepFounds(s, t, a.node, a.input, Step(n, a.input));
      MoveFounded(s, t, a.node, a.input, Step(n, a.input));
    } else {
      forall k: nat | Founded(s, k) ensures Founded(Apply(s, a), k) { FoundedOn(s, Apply(s, a), k); }
    }
  }

  lemma {:induction false} RunFounded(s: State, acts: seq<Action>)
    requires Inv(s) && AllFounded(s) && Run(s, acts).Some?
    ensures AllFounded(Run(s, acts).value)
    decreases |acts|
  {
    if acts != [] {
      var k := |acts| - 1;
      RunFounded(s, acts[..k]);
      RunInv(s, acts[..k]);
      KeepFounded(Run(s, acts[..k]).value, acts[k]);
    }
  }

  /** Over every run, with any handler cut: no term comes from nowhere.  Every term that a node has or a message
      carries is zero or was begun by some candidacy. */
  lemma TermsAreBegun(members: map<NodeID, set<NodeID>>, acts: seq<Action>, s: State)
    requires Run(Init(members), acts) == Some(s)
    ensures forall i | i in s.nodes && s.nodes[i].term > 0 :: exists c | c in s.begun :: c.term == s.nodes[i].term
    ensures forall m | m in s.sent && m.term > 0 :: exists c | c in s.begun :: c.term == m.term
  {
    InitInv(members);
    RunFounded(Init(members), acts);
    assert forall i | i in s.nodes :: Founded(s, s.nodes[i].term);
    assert forall m | m in s.sent :: Founded(s, m.term);
  }
}
