/** The `congress` node as the source writes it: a shared object whose fields the role loops overwrite.

    Each loop runs over a script of what its awaits resolve to.  A method's contract is the
    `Protocol` function of the state before it; the cluster theorems speak about those functions. */
module Congress {
  import opened Types
  import opened Protocol

  lemma BroadcastOneMore(from: NodeID, term: nat, kind: Kind, members: set<NodeID>, peer: NodeID)
    requires peer !in members
    ensures Broadcast(from, term, kind, members + {peer})
         == Broadcast(from, term, kind, members) + multiset{Message(from, peer, term, kind)}
  {
    assert (set p | p in members + {peer} :: Message(from, p, term, kind))
        == (set p | p in members :: Message(from, p, term, kind)) + {Message(from, peer, term, kind)};
  }

  class Senator {
    const id: NodeID
    var role: Role
    var term: nat
    var votedFor: Option<NodeID>
    var currentLeader: Option<NodeID>
    var lastRole: Role
    var notified: seq<Role>
    var outbox: multiset<Message>
    ghost var loop: Loop

    constructor (id: NodeID)
      ensures View() == NewNode(id) && outbox == multiset{}
    {
      this.id := id;
      role := Follower;
      term := 0;
      votedFor := None;
      currentLeader := None;
      lastRole := Follower;
      notified := [];
      outbox := multiset{};
      loop := Idle;
    }

    ghost function View(): Node
      reads this
    {
      Node(id, role, term, votedFor, currentLeader, lastRole, notified, loop)
    }

    /** The loop of a role runs exactly as long as the node has that role. */
    ghost predicate InLoop(of: Role, running: Loop)
      reads this
    {
      if role == of then loop == running else loop == Idle
    }

    ghost function Now(): Trace
      reads this
    {
      Trace(View(), outbox)
    }

    /** The inputs from position `i` on lead from here to `goal`. */
    ghost predicate Toward(goal: Trace, script: seq<Input>, i: nat)
      reads this
    {
      i <= |script| && Replay(Now(), script, i) == Some(goal)
    }

    /** Doing the next input is one step toward the goal. */
    lemma Closer(goal: Trace, script: seq<Input>, i: nat, was: Trace)
      requires i < |script| && Replay(was, script, i) == Some(goal)
      requires CanStep(was.node, script[i])
      requires Now() == Trace(Step(was.node, script[i]).node, was.out + Step(was.node, script[i]).out)
      ensures Toward(goal, script, i + 1)
    {
    }

    method SendMsg(to: NodeID, kind: Kind)
      modifies `outbox
      ensures outbox == old(outbox) + multiset{Message(id, to, term, kind)}
    {
      outbox := outbox + multiset{Message(id, to, term, kind)};
    }

    method BroadcastMessage(kind: Kind, members: set<NodeID>)
      modifies `outbox
      ensures outbox == old(outbox) + Broadcast(id, term, kind, members)
    {
      var left := members;
      while left != {}
        invariant left <= members
        invariant outbox == old(outbox) + Broadcast(id, term, kind, members - left)
        decreases left
      {
        var peer :| peer in left;
        left := left - {peer};
        SendMsg(peer, kind);
        BroadcastOneMore(id, term, kind, members - left - {peer}, peer);
        assert members - left == members - left - {peer} + {peer};
      }
    }

    /** With `cut == Some(k)` a timer drops the handler after its first `k` writes. */
    method HandleVoteRequest(to: NodeID, theirTerm: nat, cut: Option<nat>)
      modifies `term, `role, `votedFor, `outbox
      ensures var e := if cut.None? then Protocol.HandleVoteRequest(old(View()), to, theirTerm)
                       else PartVote(old(View()), to, theirTerm, cut.value);
              View() == e.node && outbox == old(outbox) + e.out
      ensures theirTerm <= old(term) ==> View() == old(View()) && outbox == old(outbox)
      ensures theirTerm > old(term) && cut.None? ==>
        term == theirTerm && role == Role.Follower && votedFor == Some(to) &&
        outbox == old(outbox) + multiset{Message(id, to, theirTerm, VoteGranted)}
      ensures cut.Some? ==> outbox == old(outbox)
    {
      if theirTerm <= term { return; }
      if cut == Some(0) { return; }
      term := theirTerm;
      if cut == Some(1) { return; }
      role := Role.Follower;
      votedFor := Some(to);
      if cut.Some? { return; }
      SendMsg(to, VoteGranted);
    }

    /** The loop of `start`: report the role, then run its loop until that returns. */
    method Start(script: seq<Input>)
      requires loop == Idle && Replay(Now(), script, 0).Some?
      modifies this
      ensures Replay(old(Now()), script, 0) == Some(Now())
    {
      ghost var goal := Replay(Now(), script, 0).value;
      var i := 0;
      while i < |script|
        invariant Toward(goal, script, i) && (loop == Idle || i == |script|)
      {
        if script[i].Say? {
          ghost var was := Now();
          BroadcastMessage(Custom(script[i].payload), script[i].members);
          Closer(goal, script, i, was);
          i := i + 1;
        } else {
          ghost var was := Now();
          var newRole := role;
          if lastRole != newRole {
            notified := notified + [newRole];
          }
          lastRole := newRole;
          match newRole {
            case Leader =>
              var leader := new LeaderLoop(this);
              i := leader.Run(script, i, goal, was);
            case Follower =>
              var follower := new FollowerLoop(this);
              i := follower.Run(script, i, goal, was);
            case Candidate =>
              var candidate := new CandidateLoop(this);
              i := candidate.Run(script, i, goal, was);
          }
        }
      }
    }

    /** `start` has reported the role for the wake-up at position `i`, from `was`. */
    ghost predicate Woken(goal: Trace, script: seq<Input>, i: nat, was: Trace)
      reads this
    {
      i < |script| && script[i].Wake? && Replay(was, script, i) == Some(goal) &&
      was.node.loop == Idle && View() == Report(was.node) && outbox == was.out
    }
  }

  class FollowerLoop {
    const senator: Senator

    constructor (senator: Senator)
      ensures this.senator == senator
    {
      this.senator := senator;
    }

    method OnHeartbeat(m: Message)
      requires m.kind == LeaderHeartbeat
      modifies senator
      ensures senator.View() == OnFollower(old(senator.View()), m).node && senator.outbox == old(senator.outbox)
    {
      if m.term >= senator.term {
        senator.term := m.term;
        senator.currentLeader := Some(m.from);
      }
    }

    /** The timer or one message, whichever `select!` resolves first. */
    method Turn(input: Input)
      requires senator.loop == InFollower && senator.role == Follower && CanStep(senator.View(), input)
      modifies senator
      ensures var e := Step(old(senator.View()), input);
              senator.View() == e.node && senator.outbox == old(senator.outbox) + e.out
      ensures senator.InLoop(Follower, InFollower)
    {
      match input {
        case Timer =>
          senator.role := Candidate;
          senator.loop := Idle;
        case Receive(m) =>
          match m.kind {
            case LeaderHeartbeat => OnHeartbeat(m);
            case VoteRequest => senator.HandleVoteRequest(m.from, m.term, None);
            case VoteGranted =>
            case Custom(_) =>
          }
        case Say(members, payload) =>
          senator.BroadcastMessage(Custom(payload), members);
        case _ =>
          assert false;
      }
    }

    ghost method Enter(script: seq<Input>, i: nat, goal: Trace, was: Trace)
      requires senator.Woken(goal, script, i, was) && senator.role == Follower
      modifies senator`loop
      ensures senator.Toward(goal, script, i + 1) && senator.loop == InFollower
    {
      senator.loop := InFollower;
      senator.Closer(goal, script, i, was);
    }

    method Next(script: seq<Input>, j: nat, ghost goal: Trace)
      requires senator.Toward(goal, script, j) && j < |script|
      requires senator.loop == InFollower && senator.role == Follower
      modifies senator
      ensures senator.Toward(goal, script, j + 1)
      ensures senator.InLoop(Follower, InFollower)
    {
      ghost var was := senator.Now();
      Turn(script[j]);
      senator.Closer(goal, script, j, was);
    }

    method Run(script: seq<Input>, i: nat, ghost goal: Trace, ghost was: Trace) returns (j: nat)
      requires senator.Woken(goal, script, i, was) && senator.role == Follower
      modifies senator
      ensures i < j && senator.Toward(goal, script, j) && (senator.loop == Idle || j == |script|)
    {
      Enter(script, i, goal, was);
      j := i + 1;
      while senator.role == Follower && j < |script|
        invariant i < j && senator.Toward(goal, script, j)
        invariant senator.InLoop(Follower, InFollower)
      {
        Next(script, j, goal);
        j := j + 1;
      }
    }
  }

  class CandidateLoop {
    const senator: Senator
    var votesGranted: nat
    var votesNeeded: nat

    constructor (senator: Senator)
      ensures this.senator == senator
    {
      this.senator := senator;
      votesGranted := 0;
      votesNeeded := 0;
    }

    method OnHeartbeat(m: Message, cut: Option<nat>)
      requires m.kind == LeaderHeartbeat && senator.loop.InCandidate?
      modifies senator
      ensures senator.outbox == old(senator.outbox)
      ensures senator.View() == if cut.None? then OnCandidate(old(senator.View()), m).node
                                else PartCandidate(old(senator.View()), m, cut.value).node
    {
      if cut.None? { senator.loop := InCandidate(senator.loop.granted, true); }
      if m.term < senator.term { return; }
      if cut == Some(0) { return; }
      senator.term := m.term;
      if cut == Some(1) { return; }
      senator.currentLeader := Some(m.from);
      if cut == Some(2) { return; }
      senator.role := Follower;
      if cut.Some? { return; }
      senator.votedFor := None;
    }

    /** One pass before the wait for a message: step down, win, or wait. */
    method Pass(members: set<NodeID>) returns (waiting: bool)
      requires senator.loop == InCandidate(votesGranted, true)
      modifies senator, `votesNeeded
      ensures senator.outbox == old(senator.outbox)
      ensures senator.View() == Protocol.Pass(old(senator.View()), members) && waiting == senator.loop.InCandidate?
      ensures senator.role == Leader <==>
        old(senator.role) == Leader || (old(senator.role) == Candidate && 2 * votesGranted > |members| + 1)
      ensures old(senator.role) == Candidate ==>
        forall k :: votesNeeded <= k <==> 2 * k > |members| + 1
    {
      if senator.role != Candidate {
        senator.loop := Idle;
        return false;
      }
      votesNeeded := 1 + (|members| + 1) / 2;
      if votesGranted >= votesNeeded {
        senator.role := Leader;
        senator.currentLeader := Some(senator.id);
        senator.loop := Idle;
        return false;
      }
      senator.loop := InCandidate(votesGranted, false);
      return true;
    }

    /** One resolved await of the candidacy; `waiting` says that the pass before it found too few votes. */
    method Turn(input: Input, waiting: bool) returns (running: bool, waiting': bool)
      requires senator.loop == InCandidate(votesGranted, !waiting) && CanStep(senator.View(), input)
      modifies this, senator
      ensures var e := Step(old(senator.View()), input);
              senator.View() == e.node && senator.outbox == old(senator.outbox) + e.out
      ensures senator.loop == if running then InCandidate(votesGranted, !waiting') else Idle
    {
      running, waiting' := true, waiting;
      match input {
        case Timer =>
          running := false;
          senator.loop := Idle;
        case Check(members) =>
          waiting' := Pass(members);
          running := waiting';
        case CutWin(_) =>
          senator.role := Leader;
          running := false;
          senator.loop := Idle;
        case Receive(m) =>
          waiting' := false;
          OnMessage(m);
        case CutCandidate(m, writes) =>
          OnMessageCut(m, writes);
          running := false;
        case Say(members, payload) =>
          senator.BroadcastMessage(Custom(payload), members);
        case _ =>
          assert false;
      }
    }

    /** A new term, a vote for itself, and a request to every member. */
    method Begin(members: set<NodeID>)
      requires senator.role == Candidate
      modifies this, senator
      ensures var was := old(senator.View());
              senator.View() == was.(term := was.term + 1, votedFor := Some(was.id), currentLeader := None,
                                     loop := InCandidate(1, true))
      ensures senator.outbox == old(senator.outbox) + Broadcast(senator.id, senator.term, VoteRequest, members)
      ensures votesGranted == 1
    {
      votesGranted := 1;
      senator.term := senator.term + 1;
      senator.votedFor := Some(senator.id);
      senator.currentLeader := None;
      senator.BroadcastMessage(VoteRequest, members);
      senator.loop := InCandidate(1, true);
    }

    method Enter(script: seq<Input>, i: nat, ghost goal: Trace, ghost was: Trace)
      requires senator.Woken(goal, script, i, was) && senator.role == Candidate
      modifies this, senator
      ensures senator.Toward(goal, script, i + 1) && votesGranted == 1 && senator.loop == InCandidate(1, true)
    {
      Begin(script[i].members);
      senator.Closer(goal, script, i, was);
    }

    method Next(script: seq<Input>, j: nat, waiting: bool, ghost goal: Trace)
      returns (running: bool, waiting': bool)
      requires senator.Toward(goal, script, j) && j < |script|
      requires senator.loop == InCandidate(votesGranted, !waiting)
      modifies this, senator
      ensures senator.Toward(goal, script, j + 1)
      ensures senator.loop == if running then InCandidate(votesGranted, !waiting') else Idle
    {
      ghost var was := senator.Now();
      running, waiting' := Turn(script[j], waiting);
      senator.Closer(goal, script, j, was);
    }

    method Run(script: seq<Input>, i: nat, ghost goal: Trace, ghost was: Trace) returns (j: nat)
      requires senator.Woken(goal, script, i, was) && senator.role == Candidate
      modifies this, senator
      ensures i < j && senator.Toward(goal, script, j) && (senator.loop == Idle || j == |script|)
    {
      Enter(script, i, goal, was);
      j := i + 1;
      var running, waiting := true, false;
      while running && j < |script|
        invariant i < j && senator.Toward(goal, script, j)
        invariant senator.loop == if running then InCandidate(votesGranted, !waiting) else Idle
      {
        running, waiting := Next(script, j, waiting, goal);
        j := j + 1;
      }
    }

    method OnMessage(m: Message)
      requires senator.loop == InCandidate(votesGranted, false)
      modifies senator, `votesGranted
      ensures var e := OnCandidate(old(senator.View()), m);
              senator.View() == e.node && senator.outbox == old(senator.outbox) + e.out
      ensures senator.loop == InCandidate(votesGranted, true)
    {
      match m.kind {
        case LeaderHeartbeat =>
          OnHeartbeat(m, None);
        case VoteRequest =>
          senator.loop := InCandidate(votesGranted, true);
          senator.HandleVoteRequest(m.from, m.term, None);
        case VoteGranted =>
          if m.term == senator.term {
            votesGranted := votesGranted + 1;
          }
          senator.loop := InCandidate(votesGranted, true);
        case Custom(_) =>
          senator.loop := InCandidate(votesGranted, true);
      }
    }

    /** The candidacy's timer drops the handler after its first `writes` writes. */
    method OnMessageCut(m: Message, writes: nat)
      requires senator.loop == InCandidate(votesGranted, false)
      modifies senator
      ensures var e := PartCandidate(old(senator.View()), m, writes);
              senator.View() == e.node.(loop := Idle) && senator.outbox == old(senator.outbox) + e.out
    {
      match m.kind {
        case LeaderHeartbeat => OnHeartbeat(m, Some(writes));
        case VoteRequest => senator.HandleVoteRequest(m.from, m.term, Some(writes));
        case VoteGranted =>
        case Custom(_) =>
      }
      senator.loop := Idle;
    }
  }

  class LeaderLoop {
    const senator: Senator

    constructor (senator: Senator)
      ensures this.senator == senator
    {
      this.senator := senator;
    }

    method OnHeartbeat(m: Message, cut: Option<nat>)
      requires m.kind == LeaderHeartbeat
      modifies senator
      ensures senator.outbox == old(senator.outbox)
      ensures senator.View() == PartLeader(old(senator.View()), m, if cut.None? then 2 else cut.value).node
    {
      if m.term <= senator.term { return; }
      if cut == Some(0) { return; }
      senator.term := m.term;
      if cut == Some(1) { return; }
      senator.role := Follower;
    }

    /** A handler, whole or cut; the loops decide afterwards whether the node still leads. */
    method OnMessage(m: Message, cut: Option<nat>)
      modifies senator
      ensures cut.Some? ==>
        var e := PartLeader(old(senator.View()), m, cut.value);
        senator.View() == e.node && senator.outbox == old(senator.outbox) + e.out
      ensures cut.None? ==>
        var e := OnLeader(old(senator.View()), m);
        senator.View().(loop := e.node.loop) == e.node && senator.outbox == old(senator.outbox) + e.out &&
        senator.loop == old(senator.loop)
    {
      match m.kind {
        case LeaderHeartbeat => OnHeartbeat(m, cut);
        case VoteRequest => senator.HandleVoteRequest(m.from, m.term, cut);
        case VoteGranted =>
        case Custom(_) =>
      }
    }

    /** From `was`, the outer loop starts the round that `input` asks for, with `members` read for it. */
    ghost predicate Resuming(was: Node, input: Input, members: set<NodeID>)
      reads this, senator
    {
      CanStep(was, input) && senator.loop == InLeader &&
      var e := Step(was, input);
      e.node == (if senator.role == Leader then senator.View() else senator.View().(loop := Idle)) &&
      e.out == (if senator.role == Leader then Broadcast(senator.id, senator.term, LeaderHeartbeat, members)
                else multiset{})
    }

    /** One resolved await of the inner loop; `again` when the outer loop must start a round. */
    method Turn(input: Input) returns (again: bool, members: set<NodeID>)
      requires senator.loop == InLeader && senator.role == Leader && CanStep(senator.View(), input)
      modifies senator
      ensures again ==> senator.outbox == old(senator.outbox) && Resuming(old(senator.View()), input, members)
      ensures !again ==>
        var e := Step(old(senator.View()), input);
        senator.View() == e.node && senator.outbox == old(senator.outbox) + e.out &&
        senator.InLoop(Leader, InLeader)
    {
      again, members := false, {};
      match input {
        case Beat(ms) =>
          again, members := true, ms;
        case CutLeader(m, writes, ms) =>
          OnMessage(m, Some(writes));
          again, members := true, ms;
        case Receive(m) =>
          OnMessage(m, None);
          if senator.role != Leader {
            senator.loop := Idle;
          }
        case Say(ms, payload) =>
          senator.BroadcastMessage(Custom(payload), ms);
        case _ =>
          assert false;
      }
    }

    /** The outer loop's check and heartbeat round. */
    method Round(members: set<NodeID>, ghost was: Node, ghost input: Input)
      requires Resuming(was, input, members)
      modifies senator
      ensures senator.View() == Step(was, input).node && senator.outbox == old(senator.outbox) + Step(was, input).out
      ensures senator.InLoop(Leader, InLeader)
    {
      if senator.role != Leader {
        senator.loop := Idle;
        return;
      }
      senator.BroadcastMessage(LeaderHeartbeat, members);
    }

    method Enter(script: seq<Input>, i: nat, ghost goal: Trace, ghost was: Trace)
      requires senator.Woken(goal, script, i, was) && senator.role == Leader
      modifies senator
      ensures senator.Toward(goal, script, i + 1) && senator.role == Leader && senator.loop == InLeader
    {
      senator.loop := InLeader;
      Round(script[i].members, was.node, script[i]);
      senator.Closer(goal, script, i, was);
    }

    /** A round is due: input `j - 1` was taken at `was`, and nothing has been sent since. */
    ghost predicate RoundDue(goal: Trace, script: seq<Input>, j: nat, members: set<NodeID>, was: Trace)
      reads this, senator
    {
      0 < j <= |script| && Replay(was, script, j - 1) == Some(goal) && was.out == senator.outbox &&
      Resuming(was.node, script[j - 1], members)
    }

    /** The inner loop: messages until the timer or a lost role ends it, or the script does. */
    method Inner(script: seq<Input>, i: nat, ghost goal: Trace)
      returns (j: nat, again: bool, members: set<NodeID>, ghost was: Trace)
      requires senator.Toward(goal, script, i) && senator.loop == InLeader && senator.role == Leader
      modifies senator
      ensures i < |script| ==> i < j
      ensures i <= j && if again then i < j && RoundDue(goal, script, j, members, was)
              else senator.Toward(goal, script, j) && senator.InLoop(Leader, InLeader) &&
                   (senator.loop == Idle || j == |script|)
    {
      j, again, members, was := i, false, {}, senator.Now();
      while !again && senator.role == Leader && j < |script|
        invariant i <= j && if again then i < j && RoundDue(goal, script, j, members, was)
                  else senator.Toward(goal, script, j) && senator.InLoop(Leader, InLeader)
        invariant i == j ==> !again && senator.role == Leader
        decreases |script| - j
      {
        was := senator.Now();
        again, members := Turn(script[j]);
        if !again { senator.Closer(goal, script, j, was); }
        j := j + 1;
      }
    }

    /** The outer loop: a round, then the inner loop until it asks for another. */
    method Run(script: seq<Input>, i: nat, ghost goal: Trace, ghost was: Trace) returns (j: nat)
      requires senator.Woken(goal, script, i, was) && senator.role == Leader
      modifies senator
      ensures i < j && senator.Toward(goal, script, j) && (senator.loop == Idle || j == |script|)
    {
      Enter(script, i, goal, was);
      j := i + 1;
      while senator.role == Leader && j < |script|
        invariant i < j && senator.Toward(goal, script, j) && senator.InLoop(Leader, InLeader)
        decreases |script| - j
      {
        var again, members;
        ghost var due;
        j, again, members, due := Inner(script, j, goal);
        if again {
          Round(members, due.node, script[j - 1]);
          senator.Closer(goal, script, j - 1, due);
        }
      }
    }
  }
}
