/** The quorum bound of election safety is exact: below it, two nodes win one term. */
module Tightness {
  import opened Types
  import opened Protocol
  import opened System
  import opened Invariants
  import opened Elections

  /** One winner per term in every run of these nodes whose winners had at least `m` connections. */
  ghost predicate AlwaysOneWinner(ids: set<NodeID>, m: nat) {
    forall members: map<NodeID, set<NodeID>>, acts: seq<Action> ::
      members.Keys == ids && Run(Init(members), acts).Some? &&
      (forall w | w in Run(Init(members), acts).value.wins :: m <= w.size) ==>
        OneWinner(Run(Init(members), acts).value)
  }

  lemma {:induction false} TakeSubset<T>(s: set<T>, k: nat) returns (t: set<T>)
    requires k <= |s|
    ensures t <= s && |t| == k
  {
    t := {};
    if k > 0 {
      var x :| x in s;
      t := TakeSubset(s - {x}, k - 1);
      t := t + {x};
    }
  }

  /** A node that has not started, and one standing in term 1 with `k` votes. */
  predicate Fresh(s: State, i: NodeID) {
    i in s.nodes && i in s.members && i in s.changes && s.nodes[i] == NewNode(i)
  }

  predicate StandsWith(s: State, c: NodeID, k: nat) {
    c in s.nodes && c in s.members && c in s.changes && s.nodes[c].id == c &&
    s.nodes[c].role == Candidate && s.nodes[c].term == 1 && s.nodes[c].loop == InCandidate(k, true)
  }

  /** The run from `s` to `t` only involved the nodes in `group`. */
  ghost predicate Apart(s: State, t: State, group: set<NodeID>) {
    t.members == s.members && t.nodes.Keys == s.nodes.Keys && t.changes.Keys == s.changes.Keys &&
    (forall i | i in s.nodes && i !in group :: t.nodes[i] == s.nodes[i]) &&
    (forall m | m in s.net && m.to !in group :: m in t.net)
  }

  predicate WaitsWith(s: State, c: NodeID, k: nat) {
    c in s.nodes && c in s.members && c in s.changes && s.nodes[c].id == c &&
    s.nodes[c].role == Candidate && s.nodes[c].term == 1 && s.nodes[c].loop == InCandidate(k, false)
  }

  predicate Follows(s: State, g: NodeID) {
    g in s.nodes && g in s.members && g in s.changes && s.nodes[g] == NewNode(g).(loop := InFollower)
  }

  predicate TimedOut(s: State, c: NodeID) {
    c in s.nodes && c in s.members && c in s.changes && s.nodes[c] == NewNode(c).(role := Candidate)
  }

  lemma MovedApart(s: State, t: State, i: NodeID, input: Input, e: Effect)
    requires Moved(s, t, i, input, e) && forall m | m in Taken(input) :: m.to == i
    ensures Apart(s, t, {i})
  {
  }

  /** A run of one step. */
  lemma Once(s: State, i: NodeID, input: Input) returns (acts: seq<Action>, t: State)
    requires Enabled(s, Local(i, input))
    ensures acts == [Local(i, input)] && Run(s, acts) == Some(t)
    ensures Moved(s, t, i, input, Step(s.nodes[i], input)) && Apart(s, t, {i})
  {
    var a := Local(i, input);
    LocalMoves(s, i, input);
    acts, t := [a], Apply(s, a);
    MovedApart(s, t, i, input, Step(s.nodes[i], input));
    assert Run(s, acts[..0]) == Some(s);
  }

  lemma ApartTrans(s: State, t: State, u: State, g: set<NodeID>, h: set<NodeID>)
    requires Apart(s, t, g) && Apart(t, u, h)
    ensures Apart(s, u, g + h)
  {
  }

  lemma WaitNode(n: Node, members: set<NodeID>)
    requires n.loop.InCandidate? && n.loop.atTop && n.role == Candidate && n.loop.granted < Needed(|members|)
    ensures Step(n, Check(members)) == Effect(n.(loop := InCandidate(n.loop.granted, false)), multiset{}, None)
  {
  }

  /** The candidate's pass finds too few votes and waits. */
  lemma WaitStep(s: State, c: NodeID, k: nat) returns (acts: seq<Action>, t: State)
    requires StandsWith(s, c, k) && k < Needed(|s.members[c]|)
    ensures Run(s, acts) == Some(t) && t.wins == s.wins && t.net == s.net
    ensures Apart(s, t, {c}) && WaitsWith(t, c, k)
  {
    WaitNode(s.nodes[c], s.members[c]);
    acts, t := Once(s, c, Check(s.members[c]));
  }

  /** A fresh node starts as a follower. */
  lemma StartStep(s: State, g: NodeID) returns (acts: seq<Action>, t: State)
    requires Fresh(s, g)
    ensures Run(s, acts) == Some(t) && t.wins == s.wins && t.net == s.net
    ensures Apart(s, t, {g}) && Follows(t, g)
  {
    acts, t := Once(s, g, Wake(s.members[g]));
  }

  /** A run of some nodes followed by a run of others is a run of both. */
  lemma ApartRuns(s: State, a: seq<Action>, t: State, b: seq<Action>, u: State, g: set<NodeID>, h: set<NodeID>)
    requires Run(s, a) == Some(t) && Run(t, b) == Some(u) && Apart(s, t, g) && Apart(t, u, h)
    ensures Run(s, a + b) == Some(u) && Apart(s, u, g + h)
  {
    RunConcat(s, a, b);
    ApartTrans(s, t, u, g, h);
  }

  /** A follower in term 0 times out. */
  lemma ExpireStep(s: State, c: NodeID) returns (acts: seq<Action>, t: State)
    requires Follows(s, c)
    ensures Run(s, acts) == Some(t) && t.wins == s.wins && t.net == s.net
    ensures Apart(s, t, {c}) && TimedOut(t, c)
  {
    acts, t := Once(s, c, Timer);
  }

  /** A node that timed out asks its members for votes in term 1. */
  lemma AskStep(s: State, c: NodeID) returns (acts: seq<Action>, t: State)
    requires TimedOut(s, c)
    ensures Run(s, acts) == Some(t) && t.wins == s.wins && s.net <= t.net
    ensures Apart(s, t, {c}) && StandsWith(t, c, 1)
    ensures forall p | p in s.members[c] :: Message(c, p, 1, VoteRequest) in t.net
  {
    acts, t := Once(s, c, Wake(s.members[c]));
  }

  /** A fresh node times out and asks its members for votes in term 1. */
  lemma Stand(s: State, c: NodeID) returns (acts: seq<Action>, t: State)
    requires Fresh(s, c)
    ensures Run(s, acts) == Some(t) && StandsWith(t, c, 1) && t.wins == s.wins
    ensures Apart(s, t, {c}) && s.net <= t.net
    ensures forall p | p in s.members[c] :: Message(c, p, 1, VoteRequest) in t.net
  {
    var a, s1 := StartStep(s, c);
    var b, s2 := ExpireStep(s1, c);
    var d;
    d, t := AskStep(s2, c);
    RunConcat(s, a, b);
    RunConcat(s, a + b, d);
    acts := a + b + d;
  }

  /** A follower in term 0 grants a request of term 1. */
  lemma GrantStep(s: State, c: NodeID, g: NodeID) returns (acts: seq<Action>, t: State)
    requires Follows(s, g) && Message(c, g, 1, VoteRequest) in s.net
    ensures Run(s, acts) == Some(t) && t.wins == s.wins
    ensures Apart(s, t, {g}) && Message(g, c, 1, VoteGranted) in t.net
  {
    acts, t := Once(s, g, Receive(Message(c, g, 1, VoteRequest)));
  }

  lemma CountStep(s: State, c: NodeID, k: nat, g: NodeID) returns (acts: seq<Action>, t: State)
    requires WaitsWith(s, c, k) && Message(g, c, 1, VoteGranted) in s.net
    ensures Run(s, acts) == Some(t) && t.wins == s.wins
    ensures Apart(s, t, {c}) && StandsWith(t, c, k + 1)
  {
    acts, t := Once(s, c, Receive(Message(g, c, 1, VoteGranted)));
  }

  /** One more fresh node grants its vote and the candidate counts it. */
  lemma OneMore(s: State, c: NodeID, k: nat, g: NodeID) returns (acts: seq<Action>, t: State)
    requires StandsWith(s, c, k) && k < Needed(|s.members[c]|)
    requires Fresh(s, g) && g != c && Message(c, g, 1, VoteRequest) in s.net
    ensures Run(s, acts) == Some(t) && StandsWith(t, c, k + 1) && t.wins == s.wins
    ensures Apart(s, t, {c, g})
  {
    var a, s1 := WaitStep(s, c, k);
    var b, s2 := StartStep(s1, g);
    var d, s3 := GrantStep(s2, c, g);
    var e;
    e, t := CountStep(s3, c, k, g);
    RunConcat(s, a, b);
    RunConcat(s, a + b, d);
    RunConcat(s, a + b + d, e);
    acts := a + b + d + e;
  }

  lemma WinStep(s: State, c: NodeID, k: nat) returns (acts: seq<Action>, t: State)
    requires StandsWith(s, c, k) && k == Needed(|s.members[c]|)
    ensures Run(s, acts) == Some(t) && Apart(s, t, {c})
    ensures t.wins == s.wins + {Win(c, 1, |s.members[c]|, true)}
  {
    acts, t := Once(s, c, Check(s.members[c]));
  }

  /** A standing candidate whose requests to a group of fresh voters, just large enough, are in flight. */
  ghost predicate Asked(s: State, c: NodeID, k: nat, group: set<NodeID>) {
    StandsWith(s, c, k) && c !in group && k + |group| == Needed(|s.members[c]|) &&
    forall g | g in group :: Fresh(s, g) && Message(c, g, 1, VoteRequest) in s.net
  }

  lemma AskedApart(s: State, t: State, c: NodeID, k: nat, group: set<NodeID>, others: set<NodeID>)
    requires Asked(s, c, k, group) && Apart(s, t, others) && others !! group + {c}
    ensures Asked(t, c, k, group)
  {
    forall g | g in group ensures Fresh(t, g) && Message(c, g, 1, VoteRequest) in t.net {
      assert Fresh(s, g) && Message(c, g, 1, VoteRequest).to !in others;
    }
  }

  lemma AskedLess(s: State, t: State, c: NodeID, k: nat, group: set<NodeID>, g: NodeID)
    requires Asked(s, c, k, group) && g in group && Apart(s, t, {c, g}) && StandsWith(t, c, k + 1)
    ensures Asked(t, c, k + 1, group - {g})
  {
    assert |group - {g}| == |group| - 1;
    forall h | h in group - {g} ensures Fresh(t, h) && Message(c, h, 1, VoteRequest) in t.net {
      assert Fresh(s, h) && Message(c, h, 1, VoteRequest).to !in {c, g};
    }
  }

  lemma ElectOne(s: State, c: NodeID, k: nat, group: set<NodeID>)
    returns (g: NodeID, acts: seq<Action>, t: State)
    requires Asked(s, c, k, group) && group != {}
    ensures g in group && Run(s, acts) == Some(t) && Asked(t, c, k + 1, group - {g})
    ensures Apart(s, t, {c, g}) && t.wins == s.wins
  {
    g :| g in group;
    assert Fresh(s, g);
    acts, t := OneMore(s, c, k, g);
    AskedLess(s, t, c, k, group, g);
  }

  lemma ElectJoin(s: State, a: seq<Action>, t: State, b: seq<Action>, u: State, c: NodeID, g: NodeID,
                  group: set<NodeID>)
    requires g in group && Run(s, a) == Some(t) && Apart(s, t, {c, g})
    requires Run(t, b) == Some(u) && Apart(t, u, group - {g} + {c})
    ensures Run(s, a + b) == Some(u) && Apart(s, u, group + {c}) && t.members == s.members
  {
    assert {c, g} + (group - {g} + {c}) == group + {c};
    ApartRuns(s, a, t, b, u, {c, g}, group - {g} + {c});
  }

  /** Such a candidate collects the votes one by one, and wins. */
  lemma {:induction false} Elect(s: State, c: NodeID, k: nat, group: set<NodeID>)
    returns (acts: seq<Action>, t: State)
    requires Asked(s, c, k, group)
    ensures Run(s, acts) == Some(t) && t.wins == s.wins + {Win(c, 1, |s.members[c]|, true)}
    ensures Apart(s, t, group + {c})
    decreases |group|
  {
    if group == {} {
      acts, t := WinStep(s, c, k);
    } else {
      var g, first, s1 := ElectOne(s, c, k, group);
      var rest;
      rest, t := Elect(s1, c, k + 1, group - {g});
      acts := first + rest;
      ElectJoin(s, first, s1, rest, t, c, g, group);
    }
  }

  lemma StandAndAsk(s: State, c: NodeID, group: set<NodeID>) returns (acts: seq<Action>, t: State)
    requires Fresh(s, c) && group <= s.members[c] && c !in group && 1 + |group| == Needed(|s.members[c]|)
    requires forall g | g in group :: Fresh(s, g)
    ensures Run(s, acts) == Some(t) && Asked(t, c, 1, group) && Apart(s, t, {c}) && t.wins == s.wins
  {
    acts, t := Stand(s, c);
    forall g | g in group ensures Fresh(t, g) { assert Fresh(s, g); }
  }

  /** Two candidates that have both asked separate groups both win term 1. */
  lemma BothElected(s: State, a: NodeID, b: NodeID, ga: set<NodeID>, gb: set<NodeID>)
    returns (acts: seq<Action>, t: State)
    requires a != b && ga !! gb && {a, b} !! ga + gb && Asked(s, a, 1, ga) && Asked(s, b, 1, gb)
    ensures Run(s, acts) == Some(t)
    ensures t.wins == s.wins + {Win(a, 1, |s.members[a]|, true)} + {Win(b, 1, |s.members[b]|, true)}
  {
    var r1, s1 := Elect(s, a, 1, ga);
    AskedApart(s, s1, b, 1, gb, ga + {a});
    var r2;
    r2, t := Elect(s1, b, 1, gb);
    RunConcat(s, r1, r2);
    acts := r1 + r2;
  }

  lemma BothAsk(s: State, a: NodeID, b: NodeID, ga: set<NodeID>, gb: set<NodeID>)
    returns (acts: seq<Action>, t: State)
    requires a != b && {a, b} !! ga + gb
    requires Fresh(s, a) && Fresh(s, b) && ga <= s.members[a] && gb <= s.members[b]
    requires forall g | g in ga + gb :: Fresh(s, g)
    requires 1 + |ga| == Needed(|s.members[a]|) && 1 + |gb| == Needed(|s.members[b]|)
    ensures Run(s, acts) == Some(t) && Asked(t, a, 1, ga) && Asked(t, b, 1, gb)
    ensures t.wins == s.wins && t.members == s.members
  {
    forall g | g in ga ensures Fresh(s, g) { assert g in ga + gb; }
    var r1, s1 := StandAndAsk(s, a, ga);
    forall g | g in gb ensures Fresh(s1, g) { assert g in ga + gb && Fresh(s, g); }
    var r2;
    r2, t := StandAndAsk(s1, b, gb);
    AskedApart(s1, t, a, 1, ga, {b});
    RunConcat(s, r1, r2);
    acts := r1 + r2;
  }

  /** Two fresh nodes with separate groups of fresh voters both win term 1. */
  lemma TwoElections(s: State, a: NodeID, b: NodeID, ga: set<NodeID>, gb: set<NodeID>)
    returns (acts: seq<Action>, t: State)
    requires a != b && ga !! gb && {a, b} !! ga + gb
    requires Fresh(s, a) && Fresh(s, b) && ga <= s.members[a] && gb <= s.members[b]
    requires forall g | g in ga + gb :: Fresh(s, g)
    requires 1 + |ga| == Needed(|s.members[a]|) && 1 + |gb| == Needed(|s.members[b]|)
    ensures Run(s, acts) == Some(t)
    ensures t.wins == s.wins + {Win(a, 1, |s.members[a]|, true)} + {Win(b, 1, |s.members[b]|, true)}
  {
    var r1, s1 := BothAsk(s, a, b, ga, gb);
    var r2;
    r2, t := BothElected(s1, a, b, ga, gb);
    RunConcat(s, r1, r2);
    acts := r1 + r2;
  }

  /** A set of `m` nodes around a group of the size a quorum needs. */
  lemma Around(from: set<NodeID>, group: set<NodeID>, m: nat) returns (list: set<NodeID>)
    requires group <= from && |group| <= m <= |from|
    ensures group <= list <= from && |list| == m
  {
    assert |from - group| == |from| - |group|;
    var more := TakeSubset(from - group, m - |group|);
    list := group + more;
  }

  /** Two candidates, their separate groups of voters, and lists of `m` and `n` other nodes around the groups. */
  lemma Cast(ids: set<NodeID>, m: nat, n: nat)
    returns (a: NodeID, b: NodeID, ga: set<NodeID>, gb: set<NodeID>, ma: set<NodeID>, mb: set<NodeID>)
    requires Needed(m) + Needed(n) <= |ids| && m < |ids| && n < |ids|
    ensures {a, b} + ma + mb <= ids && a != b && ga !! gb && {a, b} !! ga + gb
    ensures ga <= ma && gb <= mb && |ma| == m && |mb| == n && |ga| == (m + 1) / 2 && |gb| == (n + 1) / 2
  {
    a :| a in ids;
    assert |ids - {a}| == |ids| - 1;
    b :| b in ids - {a};
    assert |ids - {b}| == |ids| - 1;
    var rest := ids - {a} - {b};
    ga := TakeSubset(rest, (m + 1) / 2);
    assert |rest - ga| == |rest| - (m + 1) / 2;
    gb := TakeSubset(rest - ga, (n + 1) / 2);
    ma := Around(ids - {a}, ga, m);
    mb := Around(ids - {b}, gb, n);
  }

  lemma InitFresh(members: map<NodeID, set<NodeID>>, i: NodeID)
    requires i in members
    ensures Fresh(Init(members), i) && Init(members).members == members && Init(members).wins == {}
  {
  }

  lemma ElectionsFromInit(members: map<NodeID, set<NodeID>>, a: NodeID, b: NodeID, ga: set<NodeID>, gb: set<NodeID>)
    returns (acts: seq<Action>, t: State)
    requires a != b && ga !! gb && {a, b} !! ga + gb && {a, b} + ga + gb <= members.Keys
    requires ga <= members[a] && gb <= members[b]
    requires 1 + |ga| == Needed(|members[a]|) && 1 + |gb| == Needed(|members[b]|)
    ensures Run(Init(members), acts) == Some(t)
    ensures t.wins == {Win(a, 1, |members[a]|, true), Win(b, 1, |members[b]|, true)}
  {
    forall i | i in members ensures Fresh(Init(members), i) { InitFresh(members, i); }
    InitFresh(members, a);
    acts, t := TwoElections(Init(members), a, b, ga, gb);
  }

  lemma TwoWins(s: State, v: Win, w: Win)
    requires s.wins == {v, w} && v.term == w.term && v.node != w.node
    ensures !OneWinner(s)
  {
    assert v in s.wins && w in s.wins;
  }

  /** Below the bound there is a run with two winners of one term, who counted `m` and `n` connections. */
  lemma TwoWinners(ids: set<NodeID>, m: nat, n: nat)
    returns (members: map<NodeID, set<NodeID>>, acts: seq<Action>, s: State, a: NodeID, b: NodeID)
    requires (m + 1) / 2 + (n + 1) / 2 + 2 <= |ids| && m < |ids| && n < |ids|
    ensures members.Keys == ids && Run(Init(members), acts) == Some(s)
    ensures a != b && s.wins == {Win(a, 1, m, true), Win(b, 1, n, true)}
  {
    var ga, gb, ma, mb;
    a, b, ga, gb, ma, mb := Cast(ids, m, n);
    members := (map i | i in ids :: if i == a then ma else mb);
    acts, s := ElectionsFromInit(members, a, b, ga, gb);
  }

  /** No two nodes of these ever win one term, having counted `m` and `n` connections. */
  ghost predicate NeverBothWin(ids: set<NodeID>, m: nat, n: nat) {
    forall members: map<NodeID, set<NodeID>>, acts: seq<Action>, w: Win, x: Win ::
      members.Keys == ids && Run(Init(members), acts).Some? && w in Run(Init(members), acts).value.wins &&
      x in Run(Init(members), acts).value.wins && w.size == m && x.size == n && w.term == x.term ==>
        w.node == x.node
  }

  /** The bound for each pair of counts, of which no node can have more than all the others. */
  lemma PairBoundExact(ids: set<NodeID>, m: nat, n: nat)
    requires m < |ids| && n < |ids|
    ensures NeverBothWin(ids, m, n) <==> (m + 1) / 2 + (n + 1) / 2 + 2 > |ids|
  {
    if Needed(m) + Needed(n) > |ids| {
      forall members: map<NodeID, set<NodeID>>, acts: seq<Action>, w: Win, x: Win
        | members.Keys == ids && Run(Init(members), acts).Some? && w in Run(Init(members), acts).value.wins &&
          x in Run(Init(members), acts).value.wins && w.size == m && x.size == n && w.term == x.term
        ensures w.node == x.node
      {
        var s := Run(Init(members), acts).value;
        RunFromInit(members, acts, s);
        assert |s.nodes| == |s.nodes.Keys|;
        OverlapMeansOne(s, w, x);
      }
    } else {
      var members, acts, s, a, b := TwoWinners(ids, m, n);
      assert Win(a, 1, m, true) in s.wins && Win(b, 1, n, true) in s.wins;
    }
  }

  lemma NeededGrows(m: nat, n: nat)
    requires m <= n
    ensures Needed(m) <= Needed(n)
  {
  }

  /** Exactly when a smallest member list of `m` keeps elections safe. */
  lemma QuorumBoundExact(ids: set<NodeID>, m: nat)
    ensures AlwaysOneWinner(ids, m) <==> 2 * ((m + 1) / 2 + 1) > |ids|
  {
    if 2 * Needed(m) > |ids| {
      forall members: map<NodeID, set<NodeID>>, acts: seq<Action>
        | members.Keys == ids && Run(Init(members), acts).Some? &&
          (forall w | w in Run(Init(members), acts).value.wins :: m <= w.size)
        ensures OneWinner(Run(Init(members), acts).value)
      {
        var s := Run(Init(members), acts).value;
        RunFromInit(members, acts, s);
        assert |s.nodes| == |s.nodes.Keys|;
        forall w | w in s.wins ensures 2 * Needed(w.size) > |s.nodes| { NeededGrows(m, w.size); }
        assert QuorateWins(s);
        ElectionSafety(members, acts, s);
      }
    } else {
      var members, acts, s, a, b := TwoWinners(ids, m, m);
      TwoWins(s, Win(a, 1, m, true), Win(b, 1, m, true));
      assert !OneWinner(Run(Init(members), acts).value);
    }
  }
}
