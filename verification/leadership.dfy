/** What leaders may claim: when heartbeats are authentic, agree per term, and a leader's term is frozen. */
module Leadership {
  import opened Types
  import opened Protocol
  import opened System
  import opened Invariants
  import opened Elections

  ghost predicate Won(s: State, i: NodeID, t: nat) {
    exists w | w in s.wins :: w.node == i && w.term == t
  }

  ghost predicate WonBy(s: State, i: NodeID, t: nat) {
    exists w | w in s.wins :: w.node == i && w.term <= t
  }

  /** A leader's handler dropped between its term write and its role write: the one cut that
      leaves a leader in office in a term it did not win. */
  predicate Torn(n: Node, input: Input) {
    input.CutLeader? && input.writes == 1 && input.msg.term > n.term &&
    (input.msg.kind == LeaderHeartbeat || input.msg.kind == VoteRequest)
  }

  datatype Tear = Tear(node: NodeID, term: nat)

  function TearsOf(s: State, a: Action): set<Tear> {
    if a.Local? && a.node in s.nodes && Torn(s.nodes[a.node], a.input) then {Tear(a.node, a.input.msg.term)} else {}
  }

  /** The nodes that a run tore, with the terms they were torn into. */
  function Tears(s: State, acts: seq<Action>): set<Tear> {
    if acts == [] then {}
    else
      var k := |acts| - 1;
      match Run(s, acts[..k])
      case None => {}
      case Some(t) => Tears(s, acts[..k]) + TearsOf(t, acts[k])
  }

  /** A leader won its present term, and names itself exactly if its win ran to completion. */
  ghost predicate Reigns(s: State, n: Node) {
    exists w | w in s.wins :: w.node == n.id && w.term == n.term && (w.clean <==> n.currentLeader == Some(n.id))
  }

  /** A node in office won its term or was torn into it, and in either case won some term up to it. */
  ghost predicate InOffice(s: State, tears: set<Tear>, n: Node) {
    (Reigns(s, n) || Tear(n.id, n.term) in tears) && WonBy(s, n.id, n.term)
  }

  ghost predicate LeadersInOffice(s: State, tears: set<Tear>) {
    forall i | i in s.nodes && s.nodes[i].role == Leader :: InOffice(s, tears, s.nodes[i])
  }

  ghost predicate CandidatesHaveNoLeader(s: State) {
    forall i | i in s.nodes && Standing(s.nodes[i]) :: s.nodes[i].currentLeader == None
  }

  ghost predicate HeartbeatsWon(s: State) {
    forall m | m in s.sent && m.kind == LeaderHeartbeat :: Won(s, m.from, m.term)
  }

  ghost predicate HeartbeatsTraced(s: State, tears: set<Tear>) {
    forall m | m in s.sent && m.kind == LeaderHeartbeat ::
      (Won(s, m.from, m.term) || Tear(m.from, m.term) in tears) && WonBy(s, m.from, m.term)
  }

  ghost predicate NamedLeadersWon(s: State) {
    forall i | i in s.nodes && s.nodes[i].currentLeader.Some? ::
      WonBy(s, s.nodes[i].currentLeader.value, s.nodes[i].term)
  }

  /** Nobody ever stood in a term it was torn into. */
  ghost predicate TearsUnbegun(s: State, tears: set<Tear>) {
    forall x | x in tears ::
      x.node in s.nodes && x.term <= s.nodes[x.node].term && Candidacy(x.node, x.term) !in s.begun
  }

  /** Only a higher term ends a leadership: who led in a term leads for as long as it keeps that term. */
  ghost predicate StillLeads(s: State, i: NodeID, t: nat) {
    i in s.nodes && t <= s.nodes[i].term && (s.nodes[i].term == t ==> s.nodes[i].role == Leader)
  }

  ghost predicate SendersLead(s: State) {
    forall m | m in s.sent && m.kind == LeaderHeartbeat :: StillLeads(s, m.from, m.term)
  }

  ghost predicate TornLead(s: State, tears: set<Tear>) {
    forall x | x in tears :: StillLeads(s, x.node, x.term)
  }

  ghost predicate LeaderInv(s: State, tears: set<Tear>) {
    LeadersInOffice(s, tears) && CandidatesHaveNoLeader(s) && HeartbeatsTraced(s, tears) && NamedLeadersWon(s) &&
    TearsUnbegun(s, tears) && SendersLead(s) && TornLead(s, tears)
  }

  lemma MoreWins(s: State, t: State, i: NodeID, k: nat)
    requires s.wins <= t.wins
    ensures Won(s, i, k) ==> Won(t, i, k)
    ensures WonBy(s, i, k) ==> forall m | k <= m :: WonBy(t, i, m)
  {
    if Won(s, i, k) {
      var w :| w in s.wins && w.node == i && w.term == k;
      assert w in t.wins;
    }
    if WonBy(s, i, k) {
      var w :| w in s.wins && w.node == i && w.term <= k;
      assert w in t.wins;
    }
  }

  /** Receiving keeps a leader as it was, or ends its office with a higher term. */
  lemma LeaderReceive(n: Node, m: Message)
    requires CanStep(n, Receive(m)) && LoopMatches(n)
    ensures var n' := Step(n, Receive(m)).node;
      n'.id == n.id &&
      (n'.role == Leader ==> n.role == Leader && n'.term == n.term && n'.currentLeader == n.currentLeader) &&
      (n.role == Leader && n'.term == n.term ==> n'.role == Leader)
  {
    match m.kind
    case VoteRequest =>
    case _ =>
  }

  /** So does a cut handler, unless it is torn. */
  lemma LeaderCut(n: Node, m: Message, writes: nat, members: set<NodeID>)
    requires CanStep(n, CutLeader(m, writes, members)) && LoopMatches(n)
    ensures var n', torn := Step(n, CutLeader(m, writes, members)).node, Torn(n, CutLeader(m, writes, members));
      n'.id == n.id && n.role == Leader &&
      (n'.role == Leader ==> n'.term == (if torn then m.term else n.term) && n'.currentLeader == n.currentLeader) &&
      (torn || n'.term == n.term ==> n'.role == Leader)
  {
    match m.kind
    case VoteRequest =>
    case _ =>
  }

  /** A leader after a step either was one, in the same term unless torn, or has just won. */
  lemma StepLeader(n: Node, input: Input)
    requires CanStep(n, input) && LoopMatches(n) && Step(n, input).node.role == Leader
    ensures var n' := Step(n, input).node;
      n'.id == n.id &&
      if n.role == Leader then
        n'.currentLeader == n.currentLeader && n'.term == (if Torn(n, input) then input.msg.term else n.term)
      else
        Standing(n) && n'.term == n.term && (input.Check? || input.CutWin?) &&
        n'.currentLeader == (if input.Check? then Some(n.id) else n.currentLeader)
  {
    match input
    case Receive(m) => LeaderReceive(n, m);
    case CutLeader(m, k, ms) => LeaderCut(n, m, k, ms);
    case _ =>
  }

  lemma ReignsOn(s: State, t: State, n: Node, n': Node)
    requires Reigns(s, n) && s.wins <= t.wins
    requires n'.id == n.id && n'.term == n.term && n'.currentLeader == n.currentLeader
    ensures Reigns(t, n')
  {
    var w :| w in s.wins && w.node == n.id && w.term == n.term && (w.clean <==> n.currentLeader == Some(n.id));
    assert w in t.wins;
  }

  lemma MoveInOffice(s: State, t: State, i: NodeID, input: Input, e: Effect, tears: set<Tear>)
    requires Shape(s) && LeadersInOffice(s, tears) && CandidatesHaveNoLeader(s) && Moved(s, t, i, input, e)
    requires CanStep(s.nodes[i], input) && LoopMatches(s.nodes[i]) && e == Step(s.nodes[i], input)
    requires e.node.role == Leader
    ensures InOffice(t, tears + (if Torn(s.nodes[i], input) then {Tear(i, input.msg.term)} else {}), e.node)
  {
    var n := s.nodes[i];
    StepLeader(n, input);
    if n.role != Leader {
      assert Win(i, n.term, |input.members|, input.Check?) in t.wins;
    } else {
      assert InOffice(s, tears, n);
      MoreWins(s, t, i, n.term);
      if !Torn(n, input) && Reigns(s, n) { ReignsOn(s, t, n, e.node); }
    }
  }

  lemma StillInOffice(s: State, t: State, tears: set<Tear>, more: set<Tear>, n: Node)
    requires InOffice(s, tears, n) && s.wins <= t.wins && tears <= more
    ensures InOffice(t, more, n)
  {
    MoreWins(s, t, n.id, n.term);
    if Reigns(s, n) { ReignsOn(s, t, n, n); }
  }

  lemma KeepInOffice(s: State, a: Action, tears: set<Tear>)
    requires Inv(s) && LeadersInOffice(s, tears) && CandidatesHaveNoLeader(s) && Enabled(s, a)
    ensures LeadersInOffice(Apply(s, a), tears + TearsOf(s, a))
  {
    var t := Apply(s, a);
    StepGrows(s, a);
    if a.Local? { LocalMoves(s, a.node, a.input); }
    forall i | i in t.nodes && t.nodes[i].role == Leader ensures InOffice(t, tears + TearsOf(s, a), t.nodes[i]) {
      if a.Local? && a.node == i {
        MoveInOffice(s, t, i, a.input, Step(s.nodes[i], a.input), tears);
      } else {
        StillInOffice(s, t, tears, tears + TearsOf(s, a), s.nodes[i]);
      }
    }
  }

  lemma StepNoLeader(n: Node, input: Input)
    requires CanStep(n, input) && LoopMatches(n) && Standing(Step(n, input).node)
    requires Standing(n) ==> n.currentLeader == None
    ensures Step(n, input).node.currentLeader == None
  {
    match input
    case Receive(m) =>
    case CutLeader(m, _, _) =>
    case _ =>
  }

  lemma KeepNoLeader(s: State, a: Action)
    requires Inv(s) && CandidatesHaveNoLeader(s) && Enabled(s, a)
    ensures CandidatesHaveNoLeader(Apply(s, a))
  {
    if a.Local? && Standing(Apply(s, a).nodes[a.node]) { StepNoLeader(s.nodes[a.node], a.input); }
  }

  /** Only leaders send heartbeats, and in the term they have after the step. */
  lemma StepHeartbeat(n: Node, input: Input, m: Message)
    requires CanStep(n, input) && LoopMatches(n)
    requires m in Step(n, input).out && m.kind == LeaderHeartbeat
    ensures n.role == Leader && m.from == n.id
    ensures Step(n, input).node.role == Leader && m.term == Step(n, input).node.term
  {
    StepHonest(n, input);
    match input
    case Wake(ms) => BroadcastHonest(n.id, n.term + 1, VoteRequest, ms);
    case Receive(r) =>
    case CutLeader(r, _, _) =>
    case Say(ms, payload) => BroadcastHonest(n.id, n.term, Custom(payload), ms);
    case _ =>
  }

  lemma KeepHeartbeats(s: State, a: Action, tears: set<Tear>)
    requires Inv(s) && HeartbeatsTraced(s, tears) && Enabled(s, a)
    requires LeadersInOffice(Apply(s, a), tears + TearsOf(s, a))
    ensures HeartbeatsTraced(Apply(s, a), tears + TearsOf(s, a))
  {
    var t, more := Apply(s, a), tears + TearsOf(s, a);
    StepGrows(s, a);
    if a.Local? { LocalMoves(s, a.node, a.input); }
    forall m | m in t.sent && m.kind == LeaderHeartbeat
      ensures (Won(t, m.from, m.term) || Tear(m.from, m.term) in more) && WonBy(t, m.from, m.term)
    {
      if m in s.sent {
        MoreWins(s, t, m.from, m.term);
      } else {
        StepHeartbeat(s.nodes[a.node], a.input, m);
        StepHonest(s.nodes[a.node], a.input);
        assert InOffice(t, more, t.nodes[a.node]);
      }
    }
  }

  /** A node changes its `current_leader` only to the sender of a heartbeat, to itself on winning, or to none. */
  predicate NamesFairly(n: Node, input: Input, n': Node) {
    var l := n'.currentLeader;
    l == n.currentLeader || l == None ||
    (l == Some(n.id) && input.Check? && n.role != Leader && n'.role == Leader) ||
    ((input.Receive? || input.CutCandidate?) && l == Some(input.msg.from) && input.msg.kind == LeaderHeartbeat &&
     n'.term == input.msg.term)
  }

  lemma ReceiveNames(n: Node, m: Message)
    requires CanStep(n, Receive(m))
    ensures NamesFairly(n, Receive(m), Step(n, Receive(m)).node)
  {
    match m.kind
    case VoteRequest =>
    case _ =>
  }

  lemma StepNames(n: Node, input: Input)
    requires CanStep(n, input) && LoopMatches(n)
    ensures NamesFairly(n, input, Step(n, input).node)
  {
    match input
    case Receive(m) => ReceiveNames(n, m);
    case CutCandidate(m, _) =>
    case CutLeader(m, _, _) =>
    case _ =>
  }

  lemma MoveNames(s: State, t: State, i: NodeID, input: Input, e: Effect)
    requires Shape(s) && NamedLeadersWon(s) && Moved(s, t, i, input, e)
    requires NamesFairly(s.nodes[i], input, e.node) && s.nodes[i].term <= e.node.term && e.node.id == i
    requires forall m | m in Taken(input) && m.kind == LeaderHeartbeat :: WonBy(s, m.from, m.term)
    ensures NamedLeadersWon(t)
  {
    forall j | j in t.nodes && t.nodes[j].currentLeader.Some?
      ensures WonBy(t, t.nodes[j].currentLeader.value, t.nodes[j].term)
    {
      var l := t.nodes[j].currentLeader.value;
      if t.nodes[j].currentLeader == s.nodes[j].currentLeader {
        MoreWins(s, t, l, s.nodes[j].term);
      } else if input.Check? {
        assert Win(i, e.node.term, |input.members|, true) in t.wins;
      } else {
        assert input.msg in Taken(input);
        MoreWins(s, t, l, input.msg.term);
      }
    }
  }

  lemma KeepNames(s: State, a: Action, tears: set<Tear>)
    requires Inv(s) && LeaderInv(s, tears) && Enabled(s, a)
    ensures NamedLeadersWon(Apply(s, a))
  {
    var t := Apply(s, a);
    if a.Local? {
      var n := s.nodes[a.node];
      LocalMoves(s, a.node, a.input);
      StepHonest(n, a.input);
      StepNames(n, a.input);
      forall m | m in Taken(a.input) && m.kind == LeaderHeartbeat ensures WonBy(s, m.from, m.term) {
        TakenWasSent(s, a.node, a.input, m);
      }
      MoveNames(s, t, a.node, a.input, Step(n, a.input));
    } else {
      forall j | j in t.nodes && t.nodes[j].currentLeader.Some?
        ensures WonBy(t, t.nodes[j].currentLeader.value, t.nodes[j].term)
      {
        MoreWins(s, t, t.nodes[j].currentLeader.value, t.nodes[j].term);
      }
    }
  }

  /** A torn handler casts no vote, and its term is above every candidacy of its node. */
  lemma TornUnbegun(s: State, i: NodeID, input: Input)
    requires Inv(s) && i in s.nodes && CanStep(s.nodes[i], input) && LoopMatches(s.nodes[i]) && Torn(s.nodes[i], input)
    ensures var e := Step(s.nodes[i], input);
      e.cast == None && e.node.term == input.msg.term && e.node.role == Leader
    ensures Candidacy(i, input.msg.term) !in s.begun
  {
    if Candidacy(i, input.msg.term) in s.begun {
      VoteReached(s, Vote(i, input.msg.term, i));
    }
  }

  lemma MoveTears(s: State, t: State, i: NodeID, input: Input, e: Effect, tears: set<Tear>)
    requires TearsUnbegun(s, tears) && Moved(s, t, i, input, e)
    requires s.nodes[i].term <= e.node.term && (e.cast.Some? ==> s.nodes[i].term < e.node.term)
    ensures TearsUnbegun(t, tears)
  {
  }

  lemma KeepTears(s: State, a: Action, tears: set<Tear>)
    requires Inv(s) && TearsUnbegun(s, tears) && Enabled(s, a)
    ensures TearsUnbegun(Apply(s, a), tears + TearsOf(s, a))
  {
    if a.Local? {
      var n, t := s.nodes[a.node], Apply(s, a);
      LocalMoves(s, a.node, a.input);
      StepHonest(n, a.input);
      MoveTears(s, t, a.node, a.input, Step(n, a.input), tears);
      if Torn(n, a.input) { TornUnbegun(s, a.node, a.input); }
    }
  }

  lemma StepLeads(n: Node, input: Input)
    requires CanStep(n, input) && LoopMatches(n) && n.role == Leader && Step(n, input).node.term == n.term
    ensures Step(n, input).node.role == Leader
  {
    match input
    case Receive(m) => LeaderReceive(n, m);
    case CutLeader(m, k, ms) => LeaderCut(n, m, k, ms);
    case _ =>
  }

  lemma KeepLeads(s: State, a: Action, i: NodeID, t: nat)
    requires Inv(s) && Enabled(s, a) && StillLeads(s, i, t)
    ensures StillLeads(Apply(s, a), i, t)
  {
    if a.Local? {
      var n := s.nodes[a.node];
      LocalMoves(s, a.node, a.input);
      StepHonest(n, a.input);
      if n.role == Leader && Step(n, a.input).node.term == n.term { StepLeads(n, a.input); }
    }
  }

  lemma KeepSenders(s: State, a: Action)
    requires Inv(s) && SendersLead(s) && Enabled(s, a)
    ensures SendersLead(Apply(s, a))
  {
    var t := Apply(s, a);
    if a.Local? { LocalMoves(s, a.node, a.input); }
    forall m | m in t.sent && m.kind == LeaderHeartbeat ensures StillLeads(t, m.from, m.term) {
      if m in s.sent {
        KeepLeads(s, a, m.from, m.term);
      } else {
        StepHeartbeat(s.nodes[a.node], a.input, m);
      }
    }
  }

  lemma TornMoves(s: State, t: State, i: NodeID, input: Input, e: Effect)
    requires Moved(s, t, i, input, e) && input.CutLeader? && e.node.term == input.msg.term && e.node.role == Leader
    ensures StillLeads(t, i, input.msg.term)
  {
  }

  lemma KeepTornLead(s: State, a: Action, tears: set<Tear>)
    requires Inv(s) && TornLead(s, tears) && Enabled(s, a)
    ensures TornLead(Apply(s, a), tears + TearsOf(s, a))
  {
    var t := Apply(s, a);
    forall x | x in tears + TearsOf(s, a) ensures StillLeads(t, x.node, x.term) {
      if x in tears {
        KeepLeads(s, a, x.node, x.term);
      } else {
        TornUnbegun(s, a.node, a.input);
        LocalMoves(s, a.node, a.input);
        TornMoves(s, t, a.node, a.input, Step(s.nodes[a.node], a.input));
      }
    }
  }

  lemma KeepLeaderInv(s: State, a: Action, tears: set<Tear>)
    requires Inv(s) && LeaderInv(s, tears) && Enabled(s, a)
    ensures LeaderInv(Apply(s, a), tears + TearsOf(s, a))
  {
    KeepInOffice(s, a, tears);
    KeepNoLeader(s, a);
    KeepHeartbeats(s, a, tears);
    KeepNames(s, a, tears);
    KeepTears(s, a, tears);
    KeepSenders(s, a);
    KeepTornLead(s, a, tears);
  }

  lemma {:induction false} RunLeaderInv(s: State, acts: seq<Action>, tears: set<Tear>)
    requires Inv(s) && LeaderInv(s, tears) && Run(s, acts).Some?
    ensures Inv(Run(s, acts).value) && LeaderInv(Run(s, acts).value, tears + Tears(s, acts))
    decreases |acts|
  {
    if acts == [] {
      assert tears + {} == tears;
    } else {
      var k := |acts| - 1;
      RunLeaderInv(s, acts[..k], tears);
      var t, a := Run(s, acts[..k]).value, acts[k];
      KeepInv(t, a);
      KeepLeaderInv(t, a, tears + Tears(s, acts[..k]));
      assert tears + Tears(s, acts[..k]) + TearsOf(t, a) == tears + Tears(s, acts);
    }
  }

  lemma FromInit(members: map<NodeID, set<NodeID>>, acts: seq<Action>, s: State)
    requires Run(Init(members), acts) == Some(s)
    ensures Inv(s) && LeaderInv(s, Tears(Init(members), acts))
  {
    InitInv(members);
    RunLeaderInv(Init(members), acts, {});
    assert {} + Tears(Init(members), acts) == Tears(Init(members), acts);
  }

  /** A win was a candidacy, so a node never wins a term it was torn into. */
  lemma TearsUnwon(s: State, tears: set<Tear>, i: NodeID, t: nat)
    requires Inv(s) && TearsUnbegun(s, tears) && Won(s, i, t)
    ensures Tear(i, t) !in tears
  {
    var w :| w in s.wins && w.node == i && w.term == t;
    assert 1 <= Needed(w.size) <= |Voters(s, i, t)|;
    var v :| v in Voters(s, i, t);
    assert Vote(v, t, i) in s.votes;
  }

  /** Over every run, with any handler cut: a heartbeat carries a term its sender won if and only if
      its sender was not torn into that term. */
  lemma HeartbeatAuthenticExactly(members: map<NodeID, set<NodeID>>, acts: seq<Action>, s: State, m: Message)
    requires Run(Init(members), acts) == Some(s) && m in s.sent && m.kind == LeaderHeartbeat
    ensures Won(s, m.from, m.term) <==> Tear(m.from, m.term) !in Tears(Init(members), acts)
  {
    FromInit(members, acts, s);
    if Won(s, m.from, m.term) { TearsUnwon(s, Tears(Init(members), acts), m.from, m.term); }
  }

  /** So in runs that tear no leader's handler, whatever else is cut, every heartbeat is authentic. */
  lemma HeartbeatsAuthentic(members: map<NodeID, set<NodeID>>, acts: seq<Action>, s: State)
    requires Run(Init(members), acts) == Some(s) && Tears(Init(members), acts) == {}
    ensures HeartbeatsWon(s)
  {
    forall m | m in s.sent && m.kind == LeaderHeartbeat ensures Won(s, m.from, m.term) {
      HeartbeatAuthenticExactly(members, acts, s, m);
    }
  }

  lemma TornSends(n: Node, input: Input)
    requires CanStep(n, input) && LoopMatches(n) && Torn(n, input)
    ensures Step(n, input).out == Broadcast(n.id, input.msg.term, LeaderHeartbeat, input.members)
  {
  }

  /** A torn leader with members tells them a term it never wins. */
  lemma TornTells(s: State, t: State, i: NodeID, input: Input, e: Effect, tears: set<Tear>)
    requires input.CutLeader? && input.members != {} && Tear(i, input.msg.term) in tears
    requires Moved(s, t, i, input, e) && Inv(t) && TearsUnbegun(t, tears)
    requires e.out == Broadcast(i, input.msg.term, LeaderHeartbeat, input.members)
    ensures !HeartbeatsWon(t)
  {
    var p :| p in input.members;
    var m := Message(i, p, input.msg.term, LeaderHeartbeat);
    assert m in e.out && m in t.sent;
    if Won(t, i, m.term) { TearsUnwon(t, tears, i, m.term); }
  }

  lemma NothingNewTold(s: State, t: State)
    requires HeartbeatsWon(s) && s.wins <= t.wins
    requires forall m | m in t.sent && m.kind == LeaderHeartbeat :: m in s.sent
    ensures HeartbeatsWon(t)
  {
    forall m | m in t.sent && m.kind == LeaderHeartbeat ensures Won(t, m.from, m.term) {
      MoreWins(s, t, m.from, m.term);
    }
  }

  lemma TracedWithoutTears(s: State)
    requires HeartbeatsTraced(s, {})
    ensures HeartbeatsWon(s)
  {
  }

  /** One step keeps heartbeats authentic if and only if it does not tear a leader that has members to tell. */
  lemma HeartbeatStepExactly(s: State, a: Action)
    requires Inv(s) && LeaderInv(s, {}) && Enabled(s, a)
    ensures HeartbeatsWon(Apply(s, a)) <==> TearsOf(s, a) == {} || a.input.members == {}
  {
    KeepInv(s, a);
    KeepLeaderInv(s, a, {});
    TracedWithoutTears(s);
    if TearsOf(s, a) == {} {
      assert {} + TearsOf(s, a) == {};
      TracedWithoutTears(Apply(s, a));
    } else {
      TornSends(s.nodes[a.node], a.input);
      LocalMoves(s, a.node, a.input);
      var e := Step(s.nodes[a.node], a.input);
      if a.input.members != {} {
        TornTells(s, Apply(s, a), a.node, a.input, e, {} + TearsOf(s, a));
      } else {
        assert e.out == multiset{};
        NothingNewTold(s, Apply(s, a));
      }
    }
  }

  /** Over every run, with any handler cut: a named leader won some term no later than the holder's. */
  lemma NamedLeadersAuthentic(members: map<NodeID, set<NodeID>>, acts: seq<Action>, s: State, i: NodeID)
    requires Run(Init(members), acts) == Some(s) && i in s.nodes && s.nodes[i].currentLeader.Some?
    ensures WonBy(s, s.nodes[i].currentLeader.value, s.nodes[i].term)
  {
    FromInit(members, acts, s);
  }

  /** Two heartbeats of one term have one sender, unless one of their senders was torn into it. */
  lemma HeartbeatsAgree(members: map<NodeID, set<NodeID>>, acts: seq<Action>, s: State, m: Message, k: Message)
    requires Run(Init(members), acts) == Some(s) && QuorateWins(s)
    requires m in s.sent && k in s.sent && m.kind == k.kind == LeaderHeartbeat && m.term == k.term
    requires Tear(m.from, m.term) !in Tears(Init(members), acts)
    requires Tear(k.from, k.term) !in Tears(Init(members), acts)
    ensures m.from == k.from
  {
    FromInit(members, acts, s);
    QuorateMeansOneWinner(s);
    assert Won(s, m.from, m.term) && Won(s, k.from, k.term);
  }

  /** A heartbeat of a term that its sender won shares its sender with another heartbeat of that term
      if and only if the other's sender was not torn into it. */
  lemma HeartbeatsAgreeExactly(members: map<NodeID, set<NodeID>>, acts: seq<Action>, s: State, m: Message, k: Message)
    requires Run(Init(members), acts) == Some(s) && QuorateWins(s)
    requires m in s.sent && k in s.sent && m.kind == k.kind == LeaderHeartbeat && m.term == k.term
    requires Won(s, m.from, m.term)
    ensures m.from == k.from <==> Tear(k.from, k.term) !in Tears(Init(members), acts)
  {
    HeartbeatAuthenticExactly(members, acts, s, m);
    HeartbeatAuthenticExactly(members, acts, s, k);
    if Tear(k.from, k.term) !in Tears(Init(members), acts) { HeartbeatsAgree(members, acts, s, m, k); }
  }

  /** All heartbeats of term `t` have one sender. */
  ghost predicate OneSender(s: State, t: nat) {
    forall m, k | m in s.sent && k in s.sent && m.kind == k.kind == LeaderHeartbeat && m.term == k.term == t ::
      m.from == k.from
  }

  /** A sender of heartbeats of term `t` was torn into it. */
  ghost predicate TornSender(s: State, tears: set<Tear>, t: nat) {
    exists k | k in s.sent :: k.kind == LeaderHeartbeat && k.term == t && Tear(k.from, t) in tears
  }

  /** A term that its winner speaks in has one sender of heartbeats if and only if no sender was torn into it. */
  lemma OneSenderExactly(members: map<NodeID, set<NodeID>>, acts: seq<Action>, s: State, m: Message)
    requires Run(Init(members), acts) == Some(s) && QuorateWins(s)
    requires m in s.sent && m.kind == LeaderHeartbeat && Won(s, m.from, m.term)
    ensures OneSender(s, m.term) <==> !TornSender(s, Tears(Init(members), acts), m.term)
  {
    forall k | k in s.sent && k.kind == LeaderHeartbeat && k.term == m.term
      ensures m.from == k.from <==> Tear(k.from, m.term) !in Tears(Init(members), acts)
    {
      HeartbeatsAgreeExactly(members, acts, s, m, k);
    }
  }

  ghost predicate StaysLeader(s: State, acts: seq<Action>, i: NodeID) {
    forall k | 0 <= k <= |acts| ::
      Run(s, acts[..k]).Some? && i in Run(s, acts[..k]).value.nodes && Run(s, acts[..k]).value.nodes[i].role == Leader
  }

  ghost predicate TornAway(s: State, acts: seq<Action>, i: NodeID) {
    exists x | x in Tears(s, acts) :: x.node == i
  }

  lemma TornAwayStep(s: State, acts: seq<Action>, i: NodeID)
    requires acts != [] && Run(s, acts[..|acts| - 1]).Some?
    ensures var t, a := Run(s, acts[..|acts| - 1]).value, acts[|acts| - 1];
      TornAway(s, acts, i) <==>
        TornAway(s, acts[..|acts| - 1], i) || (a.Local? && a.node == i && i in t.nodes && Torn(t.nodes[i], a.input))
  {
    var k := |acts| - 1;
    var t, a := Run(s, acts[..k]).value, acts[k];
    if a.Local? && a.node == i && i in t.nodes && Torn(t.nodes[i], a.input) {
      assert Tear(i, a.input.msg.term) in Tears(s, acts);
    }
    if TornAway(s, acts[..k], i) {
      var x :| x in Tears(s, acts[..k]) && x.node == i;
      assert x in Tears(s, acts);
    }
  }

  lemma OfficeStep(s: State, a: Action, i: NodeID)
    requires Inv(s) && Enabled(s, a) && i in s.nodes && s.nodes[i].role == Leader
    requires i in Apply(s, a).nodes && Apply(s, a).nodes[i].role == Leader
    ensures var n, n' := s.nodes[i], Apply(s, a).nodes[i];
      n'.currentLeader == n.currentLeader && n.term <= n'.term &&
      (n.term < n'.term <==> a.Local? && a.node == i && Torn(n, a.input))
  {
    if a.Local? {
      LocalMoves(s, a.node, a.input);
      if a.node == i { StepLeader(s.nodes[i], a.input); }
    }
  }

  lemma {:induction false} StayInOffice(s: State, acts: seq<Action>, i: NodeID)
    requires Inv(s) && i in s.nodes && StaysLeader(s, acts, i)
    ensures Run(s, acts).Some? && i in Run(s, acts).value.nodes
    ensures var n := Run(s, acts).value.nodes[i];
      n.currentLeader == s.nodes[i].currentLeader && s.nodes[i].term <= n.term &&
      (s.nodes[i].term < n.term <==> TornAway(s, acts, i))
    decreases |acts|
  {
    assert acts[..|acts|] == acts;
    if acts != [] {
      var k := |acts| - 1;
      forall j | 0 <= j <= k ensures acts[..k][..j] == acts[..j] {}
      StayInOffice(s, acts[..k], i);
      RunInv(s, acts[..k]);
      TornAwayStep(s, acts, i);
      OfficeStep(Run(s, acts[..k]).value, acts[k], i);
    }
  }

  /** Over a stay in office, a leader's term moves if and only if one of its own handlers is torn, and
      whom it names never changes.  It holds a term it won exactly when it was not torn into it, and then
      names itself exactly when the win was not cut. */
  lemma LeaderTermFrozen(members: map<NodeID, set<NodeID>>, before: seq<Action>, during: seq<Action>,
                         s: State, t: State, i: NodeID)
    requires Run(Init(members), before) == Some(s) && Run(s, during) == Some(t)
    requires i in s.nodes && i in t.nodes && StaysLeader(s, during, i)
    ensures t.nodes[i].term != s.nodes[i].term <==> TornAway(s, during, i)
    ensures t.nodes[i].currentLeader == s.nodes[i].currentLeader
    ensures Won(s, i, s.nodes[i].term) <==> Tear(i, s.nodes[i].term) !in Tears(Init(members), before)
    ensures Won(s, i, s.nodes[i].term) ==> exists w | w in s.wins ::
      w.node == i && w.term == s.nodes[i].term && (w.clean <==> s.nodes[i].currentLeader == Some(i))
  {
    FromInit(members, before, s);
    assert Run(s, during[..0]).value == s;
    assert InOffice(s, Tears(Init(members), before), s.nodes[i]);
    StayInOffice(s, during, i);
    if Won(s, i, s.nodes[i].term) { TearsUnwon(s, Tears(Init(members), before), i, s.nodes[i].term); }
  }

  /** A single step leaves a leader in office with another term if and only if it is torn. */
  lemma LeaderTermMovesExactly(n: Node, input: Input)
    requires CanStep(n, input) && LoopMatches(n) && n.role == Leader
    ensures Step(n, input).node.role == Leader && Step(n, input).node.term != n.term <==> Torn(n, input)
  {
    match input
    case Receive(m) => LeaderReceive(n, m);
    case CutLeader(m, k, ms) => LeaderCut(n, m, k, ms);
    case _ =>
  }
}
