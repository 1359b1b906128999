/** The same nodes under an integer clock in milliseconds, with no message lost:
    how slow delivery may be before a healthy leader loses its followers. */
module Timing {
  import opened Types
  import opened Protocol
  import opened Invariants

  /** A leader sleeps at least this long between rounds; `sleep_until` never wakes early. */
  const BEAT_WAIT := 50
  const MIN_TIMEOUT := 400
  const MAX_TIMEOUT := 800

  /** A leader resumes within `gap` of its last round, and a message arrives in under `delay`. */
  datatype Bounds = Bounds(gap: nat, delay: nat)

  /** Even the heartbeat of a late round arrives before the shortest timeout runs out. */
  predicate Prompt(b: Bounds) {
    0 < b.delay && b.gap + b.delay <= MIN_TIMEOUT
  }

  datatype Stamped = Stamped(msg: Message, at: int)

  /** `due` is each node's `next_timeout`, `beat` the instant of its last heartbeat round. */
  datatype Clocked = Clocked(
    nodes: map<NodeID, Node>,
    members: map<NodeID, set<NodeID>>,
    flight: multiset<Stamped>,
    now: int,
    due: map<NodeID, int>,
    beat: map<NodeID, int>)

  /** `draw` is the random timeout in case the step sets one, `at` the stamp of the message it takes. */
  datatype Event = Tick | Act(node: NodeID, input: Input, draw: int, at: int)

  function StampAll(out: multiset<Message>, at: int): multiset<Stamped> {
    multiset(set m | m in out :: Stamped(m, at))
  }

  /** A follower resets its timeout when it accepts a heartbeat; `start` when a role loop returns. */
  predicate Resets(n: Node, input: Input)
    requires CanStep(n, input)
  {
    (n.loop.InFollower? && input.Receive? && input.msg.kind == LeaderHeartbeat && input.msg.term >= n.term) ||
    (!n.loop.Idle? && Step(n, input).node.loop.Idle?)
  }

  predicate Beats(n: Node, input: Input)
    requires CanStep(n, input)
  {
    Step(n, input).node.loop.InLeader? && (input.Beat? || input.Wake? || input.CutLeader?)
  }

  predicate MembersMatch(s: Clocked, i: NodeID, input: Input)
    requires i in s.members
  {
    (input.Wake? || input.Beat? || input.Check? || input.CutWin? || input.CutLeader? || input.Say?) ==>
      input.members == s.members[i]
  }

  predicate Arrives(s: Clocked, i: NodeID, input: Input, at: int) {
    (input.Receive? || input.CutCandidate? || input.CutLeader?) ==>
      input.msg.to == i && Stamped(input.msg, at) in s.flight
  }

  /** A leader's timer has run for its 50 ms. */
  predicate Rested(s: Clocked, i: NodeID) {
    i in s.beat && s.beat[i] + BEAT_WAIT <= s.now
  }

  /** Time passes only while every leader beats in time and every message is younger than its bound;
      a leader's next round, whether it cuts a handler or not, comes only after the sleep. */
  ghost predicate Possible(s: Clocked, b: Bounds, e: Event) {
    match e
    case Tick =>
      (forall i | i in s.nodes && s.nodes[i].loop.InLeader? :: i in s.beat && s.now + 1 - s.beat[i] <= b.gap) &&
      (forall m | m in s.flight :: s.now + 1 - m.at < b.delay)
    case Act(i, input, draw, at) =>
      i in s.nodes && i in s.members && i in s.due && CanStep(s.nodes[i], input) &&
      MembersMatch(s, i, input) && Arrives(s, i, input, at) && MIN_TIMEOUT <= draw < MAX_TIMEOUT &&
      (input.Timer? && s.nodes[i].loop.InFollower? ==> s.due[i] <= s.now) &&
      (input.Beat? || input.CutLeader? ==> Rested(s, i))
  }

  function StampsTaken(input: Input, at: int): multiset<Stamped> {
    if input.Receive? || input.CutCandidate? || input.CutLeader? then multiset{Stamped(input.msg, at)} else multiset{}
  }

  ghost function Advance(s: Clocked, b: Bounds, e: Event): Clocked
    requires Possible(s, b, e)
  {
    match e
    case Tick => s.(now := s.now + 1)
    case Act(i, input, draw, at) =>
      var n := s.nodes[i];
      var step := Step(n, input);
      s.(nodes := s.nodes[i := step.node],
         flight := s.flight - StampsTaken(input, at) + StampAll(step.out, s.now),
         due := if Resets(n, input) then s.due[i := s.now + draw] else s.due,
         beat := if Beats(n, input) then s.beat[i := s.now] else s.beat)
  }

  ghost function Play(s: Clocked, b: Bounds, events: seq<Event>): Option<Clocked> {
    if events == [] then Some(s)
    else
      var k := |events| - 1;
      match Play(s, b, events[..k])
      case None => None
      case Some(t) => if Possible(t, b, events[k]) then Some(Advance(t, b, events[k])) else None
  }

  /** A follower's election timer has run out. */
  predicate TimerDue(s: Clocked, i: NodeID) {
    i in s.nodes && s.nodes[i].loop.InFollower? && i in s.due && s.due[i] <= s.now
  }

  predicate Sitting(n: Node, t: nat) {
    n.role == Leader && n.loop.InLeader? && n.term == t
  }

  predicate Following(n: Node, t: nat) {
    n.role == Follower && n.loop.InFollower? && n.term == t
  }

  ghost predicate PeacefulNodes(s: Clocked, l: NodeID, t: nat) {
    l in s.nodes && s.members.Keys == s.nodes.Keys == s.due.Keys && s.members[l] == s.nodes.Keys - {l} &&
    forall i | i in s.nodes ::
      s.nodes[i].id == i && if i == l then Sitting(s.nodes[i], t) else Following(s.nodes[i], t)
  }

  ghost predicate PeacefulFlight(s: Clocked, t: nat) {
    forall m | m in s.flight :: m.msg.term <= t
  }

  /** One leader `l`, everyone else a follower of its term, no higher term in flight. */
  ghost predicate Peaceful(s: Clocked, b: Bounds, l: NodeID, t: nat) {
    PeacefulNodes(s, l, t) && PeacefulFlight(s, t) && l in s.beat && s.beat[l] <= s.now <= s.beat[l] + b.gap
  }

  ghost predicate Young(s: Clocked, b: Bounds) {
    forall m | m in s.flight :: s.now - m.at < b.delay
  }

  /** Everyone has just accepted a heartbeat, so no timer is closer than the smallest draw. */
  ghost predicate FreshStart(s: Clocked, b: Bounds, l: NodeID, t: nat) {
    Peaceful(s, b, l, t) && Young(s, b) &&
    forall i | i in s.nodes && i != l :: s.now + MIN_TIMEOUT <= s.due[i]
  }

  /** A follower is safe when its timer is far from the last round, or a heartbeat will arrive first. */
  ghost predicate Covered(s: Clocked, b: Bounds, l: NodeID, t: nat, i: NodeID)
    requires l in s.beat && i in s.due
  {
    s.beat[l] + MIN_TIMEOUT <= s.due[i] ||
    exists m | m in s.flight :: m.msg == Message(l, i, t, LeaderHeartbeat) && m.at + b.delay <= s.due[i]
  }

  ghost predicate Stable(s: Clocked, b: Bounds, l: NodeID, t: nat) {
    Peaceful(s, b, l, t) && Young(s, b) &&
    forall i | i in s.nodes && i != l :: Covered(s, b, l, t, i)
  }

  lemma CoveredNotDue(s: Clocked, b: Bounds, l: NodeID, t: nat, i: NodeID)
    requires Prompt(b) && Stable(s, b, l, t)
    ensures !TimerDue(s, i)
  {
    if i in s.nodes && i != l { assert Covered(s, b, l, t, i); }
  }

  lemma StampedBroadcast(from: NodeID, t: nat, kind: Kind, ms: set<NodeID>, at: int, i: NodeID)
    requires i in ms
    ensures Stamped(Message(from, i, t, kind), at) in StampAll(Broadcast(from, t, kind, ms), at)
  {
    assert Message(from, i, t, kind) in Broadcast(from, t, kind, ms);
  }

  /** In peace, messages up to the present term change nobody's role or term. */
  lemma PeacefulStep(n: Node, input: Input, t: nat)
    requires CanStep(n, input) && !input.Timer? && (Sitting(n, t) || Following(n, t))
    requires input.Receive? || input.CutLeader? ==> input.msg.term <= t
    ensures var e := Step(n, input);
      e.node.id == n.id && (Sitting(n, t) ==> Sitting(e.node, t)) && (Following(n, t) ==> Following(e.node, t)) &&
      forall m | m in e.out :: m.term == t
  {
    match input
    case Beat(ms) => BroadcastHonest(n.id, t, LeaderHeartbeat, ms);
    case CutLeader(m, _, ms) => BroadcastHonest(n.id, t, LeaderHeartbeat, ms);
    case Say(ms, payload) => BroadcastHonest(n.id, t, Custom(payload), ms);
    case Receive(m) => PeacefulReceive(n, m, t);
    case _ =>
  }

  lemma PeacefulReceive(n: Node, m: Message, t: nat)
    requires CanStep(n, Receive(m)) && (Sitting(n, t) || Following(n, t)) && m.term <= t
    ensures var e := Step(n, Receive(m));
      e.node.id == n.id && (Sitting(n, t) ==> Sitting(e.node, t)) && (Following(n, t) ==> Following(e.node, t)) &&
      e.out == multiset{}
  {
    match m.kind
    case VoteRequest =>
    case _ =>
  }

  lemma NodesMoved(s: Clocked, u: Clocked, l: NodeID, t: nat, i: NodeID, n: Node)
    requires PeacefulNodes(s, l, t) && i in s.nodes && u.nodes == s.nodes[i := n] && u.members == s.members
    requires u.due.Keys == s.due.Keys && n.id == i && if i == l then Sitting(n, t) else Following(n, t)
    ensures PeacefulNodes(u, l, t)
  {
  }

  lemma KeepNodes(s: Clocked, b: Bounds, l: NodeID, t: nat, e: Event)
    requires Prompt(b) && Stable(s, b, l, t) && Possible(s, b, e)
    ensures PeacefulNodes(Advance(s, b, e), l, t)
  {
    if e.Act? {
      CoveredNotDue(s, b, l, t, e.node);
      var n := s.nodes[e.node];
      PeacefulStep(n, e.input, t);
      NodesMoved(s, Advance(s, b, e), l, t, e.node, Step(n, e.input).node);
    }
  }

  lemma StampAllAt(out: multiset<Message>, at: int, m: Stamped)
    requires m in StampAll(out, at)
    ensures m.msg in out && m.at == at
  {
  }

  lemma KeepFlight(s: Clocked, b: Bounds, l: NodeID, t: nat, e: Event)
    requires Prompt(b) && Stable(s, b, l, t) && Possible(s, b, e)
    ensures PeacefulFlight(Advance(s, b, e), t) && Young(Advance(s, b, e), b)
  {
    if e.Act? {
      var s' := Advance(s, b, e);
      CoveredNotDue(s, b, l, t, e.node);
      PeacefulStep(s.nodes[e.node], e.input, t);
      forall m | m in s'.flight ensures m.msg.term <= t && s'.now - m.at < b.delay {
        if m !in s.flight { StampAllAt(Step(s.nodes[e.node], e.input).out, s.now, m); }
      }
    }
  }

  lemma KeepClock(s: Clocked, b: Bounds, l: NodeID, t: nat, e: Event)
    requires Prompt(b) && Stable(s, b, l, t) && Possible(s, b, e)
    ensures var s' := Advance(s, b, e);
      l in s'.beat && s.beat[l] <= s'.beat[l] <= s'.now <= s'.beat[l] + b.gap && s.now <= s'.now
  {
    assert Sitting(s.nodes[l], t);
  }

  /** A round puts a heartbeat to every follower in flight. */
  lemma RoundSends(n: Node, input: Input, t: nat, now: int, i: NodeID)
    requires CanStep(n, input) && Sitting(n, t) && Beats(n, input) && i in input.members
    requires input.CutLeader? ==> input.msg.term <= t
    ensures Stamped(Message(n.id, i, t, LeaderHeartbeat), now) in StampAll(Step(n, input).out, now)
  {
    StampedBroadcast(n.id, t, LeaderHeartbeat, input.members, now, i);
  }

  /** A round covers a follower whose timer was far, since the round comes in time. */
  lemma RoundCovers(s: Clocked, b: Bounds, l: NodeID, t: nat, e: Event, i: NodeID)
    requires Prompt(b) && Stable(s, b, l, t) && Possible(s, b, e)
    requires i in s.nodes && i != l && e.Act? && e.node == l && Beats(s.nodes[l], e.input)
    requires s.beat[l] + MIN_TIMEOUT <= s.due[i]
    ensures var m := Stamped(Message(l, i, t, LeaderHeartbeat), s.now);
      m in Advance(s, b, e).flight && m.at + b.delay <= s.due[i]
  {
    assert i in s.members[l];
    RoundSends(s.nodes[l], e.input, t, s.now, i);
  }

  /** The covering heartbeat stays in flight until its follower accepts it and resets its timer. */
  lemma CoverStays(s: Clocked, b: Bounds, l: NodeID, t: nat, e: Event, i: NodeID, m: Stamped)
    requires Prompt(b) && Stable(s, b, l, t) && Possible(s, b, e) && i in s.nodes && i != l
    requires m in s.flight && m.msg == Message(l, i, t, LeaderHeartbeat)
    requires e.Act? && e.node == i ==> !Resets(s.nodes[i], e.input)
    ensures m in Advance(s, b, e).flight
  {
    if e.Act? && e.node == i {
      assert Following(s.nodes[i], t);
      assert m !in StampsTaken(e.input, e.at);
    }
  }

  lemma DueAfter(s: Clocked, b: Bounds, l: NodeID, t: nat, e: Event, i: NodeID)
    requires Prompt(b) && Stable(s, b, l, t) && Possible(s, b, e) && i in s.nodes && i != l
    ensures var s' := Advance(s, b, e);
      i in s'.due &&
      if e.Act? && e.node == i && Resets(s.nodes[i], e.input) then s.now + MIN_TIMEOUT <= s'.due[i]
      else s'.due[i] == s.due[i]
  {
  }

  lemma BeatAfter(s: Clocked, b: Bounds, l: NodeID, t: nat, e: Event)
    requires Prompt(b) && Stable(s, b, l, t) && Possible(s, b, e)
    ensures var s' := Advance(s, b, e);
      l in s'.beat &&
      s'.beat[l] == if e.Act? && e.node == l && Beats(s.nodes[l], e.input) then s.now else s.beat[l]
  {
  }

  lemma KeepCovered(s: Clocked, b: Bounds, l: NodeID, t: nat, e: Event, i: NodeID)
    requires Prompt(b) && Stable(s, b, l, t) && Possible(s, b, e)
    requires i in s.nodes && i != l
    ensures var s' := Advance(s, b, e); l in s'.beat && i in s'.due && Covered(s', b, l, t, i)
  {
    assert Covered(s, b, l, t, i);
    DueAfter(s, b, l, t, e, i);
    BeatAfter(s, b, l, t, e);
    if e.Act? && e.node == i && Resets(s.nodes[i], e.input) {
    } else if s.beat[l] + MIN_TIMEOUT <= s.due[i] {
      if e.Act? && e.node == l && Beats(s.nodes[l], e.input) { RoundCovers(s, b, l, t, e, i); }
    } else {
      var m :| m in s.flight && m.msg == Message(l, i, t, LeaderHeartbeat) && m.at + b.delay <= s.due[i];
      CoverStays(s, b, l, t, e, i, m);
    }
  }

  lemma KeepStable(s: Clocked, b: Bounds, l: NodeID, t: nat, e: Event)
    requires Prompt(b) && Stable(s, b, l, t) && Possible(s, b, e)
    ensures Stable(Advance(s, b, e), b, l, t)
  {
    KeepNodes(s, b, l, t, e);
    KeepFlight(s, b, l, t, e);
    KeepClock(s, b, l, t, e);
    var s' := Advance(s, b, e);
    assert s'.nodes.Keys == s.nodes.Keys;
    forall i | i in s'.nodes && i != l ensures Covered(s', b, l, t, i) {
      KeepCovered(s, b, l, t, e, i);
    }
  }

  lemma {:induction false} PlayStable(s: Clocked, b: Bounds, l: NodeID, t: nat, events: seq<Event>)
    requires Prompt(b) && Stable(s, b, l, t) && Play(s, b, events).Some?
    ensures Stable(Play(s, b, events).value, b, l, t)
    ensures Play(s, b, events).value.nodes.Keys == s.nodes.Keys
    decreases |events|
  {
    if events != [] {
      var k := |events| - 1;
      PlayStable(s, b, l, t, events[..k]);
      KeepStable(Play(s, b, events[..k]).value, b, l, t, events[k]);
    }
  }

  /** Timed leader stability: from a fresh start, with delivery within the bound, no election timer
      ever runs out and no role or term ever changes. */
  lemma LeaderStability(s: Clocked, b: Bounds, l: NodeID, t: nat, events: seq<Event>, u: Clocked)
    requires 0 < b.delay && b.gap + b.delay <= 400 && FreshStart(s, b, l, t) && Play(s, b, events) == Some(u)
    ensures u.nodes.Keys == s.nodes.Keys
    ensures forall i | i in u.nodes ::
      !TimerDue(u, i) && u.nodes[i].role == s.nodes[i].role && u.nodes[i].term == s.nodes[i].term
  {
    assert forall i | i in s.nodes && i != l :: Covered(s, b, l, t, i);
    PlayStable(s, b, l, t, events);
    forall i | i in u.nodes ensures !TimerDue(u, i) { CoveredNotDue(u, b, l, t, i); }
  }

  /** From every fresh start, whatever happens, no election timer runs out. */
  ghost predicate StableFor(b: Bounds) {
    forall s: Clocked, l: NodeID, t: nat, events: seq<Event> ::
      FreshStart(s, b, l, t) && Play(s, b, events).Some? ==>
        forall i | i in s.nodes :: !TimerDue(Play(s, b, events).value, i)
  }

  lemma PlaySnoc(s: Clocked, b: Bounds, events: seq<Event>, t: Clocked, e: Event)
    requires Play(s, b, events) == Some(t) && Possible(t, b, e)
    ensures Play(s, b, events + [e]) == Some(Advance(t, b, e))
  {
    assert (events + [e])[..|events|] == events;
  }

  const SITTING := Node(0, Leader, 1, Some(0), Some(0), Leader, [Candidate, Leader], InLeader)
  const FOLLOWING := Node(1, Follower, 1, Some(0), Some(0), Follower, [], InFollower)

  /** Node 1 accepted a heartbeat at time 0 and drew the smallest timeout; every later round is still in flight. */
  ghost predicate Lagging(s: Clocked, b: Bounds) {
    s.nodes == map[0 := SITTING, 1 := FOLLOWING] && s.members == map[0 := {1}, 1 := {0}] &&
    s.due == map[0 := MIN_TIMEOUT, 1 := MIN_TIMEOUT] && s.beat.Keys == {0} &&
    0 <= s.beat[0] <= s.now <= s.beat[0] + b.gap && s.now <= MIN_TIMEOUT &&
    forall m | m in s.flight :: b.gap <= m.at && m.msg == Message(0, 1, 1, LeaderHeartbeat)
  }

  lemma LagTick(s: Clocked, b: Bounds)
    requires Lagging(s, b) && MIN_TIMEOUT < b.gap + b.delay && s.now < MIN_TIMEOUT && s.now < s.beat[0] + b.gap
    ensures Possible(s, b, Tick) && Lagging(Advance(s, b, Tick), b)
  {
  }

  lemma LagBeat(s: Clocked, b: Bounds)
    requires Lagging(s, b) && s.now == s.beat[0] + b.gap && BEAT_WAIT <= b.gap
    ensures var e := Act(0, Beat({1}), MIN_TIMEOUT, 0);
      Possible(s, b, e) && Lagging(Advance(s, b, e), b) &&
      Advance(s, b, e).now == s.now == Advance(s, b, e).beat[0]
  {
    var e := Act(0, Beat({1}), MIN_TIMEOUT, 0);
    var s' := Advance(s, b, e);
    forall m | m in s'.flight ensures b.gap <= m.at && m.msg == Message(0, 1, 1, LeaderHeartbeat) {
      if m !in s.flight { StampAllAt(Broadcast(0, 1, LeaderHeartbeat, {1}), s.now, m); }
    }
    assert s'.nodes == s.nodes;
  }

  lemma {:induction false} Lag(s0: Clocked, b: Bounds, past: seq<Event>, s: Clocked)
    returns (events: seq<Event>, u: Clocked)
    requires BEAT_WAIT <= b.gap && MIN_TIMEOUT < b.gap + b.delay && Play(s0, b, past) == Some(s) && Lagging(s, b)
    ensures Play(s0, b, events) == Some(u) && Lagging(u, b) && u.now == MIN_TIMEOUT
    decreases MIN_TIMEOUT - s.now, s.now - s.beat[0]
  {
    if s.now == MIN_TIMEOUT {
      events, u := past, s;
    } else if s.now < s.beat[0] + b.gap {
      LagTick(s, b);
      PlaySnoc(s0, b, past, s, Tick);
      events, u := Lag(s0, b, past + [Tick], Advance(s, b, Tick));
    } else {
      var e := Act(0, Beat({1}), MIN_TIMEOUT, 0);
      LagBeat(s, b);
      PlaySnoc(s0, b, past, s, e);
      events, u := Lag(s0, b, past + [e], Advance(s, b, e));
    }
  }

  /** The bound is exact: with timeouts from 400 ms, leaders are stable exactly when the gap between
      rounds and the delivery bound add up to at most 400 ms. */
  lemma DelayBoundExact(b: Bounds)
    requires 50 <= b.gap && 0 < b.delay
    ensures StableFor(b) <==> b.gap + b.delay <= 400
  {
    if b.gap + b.delay <= MIN_TIMEOUT {
      forall s: Clocked, l: NodeID, t: nat, events: seq<Event>
        | FreshStart(s, b, l, t) && Play(s, b, events).Some?
        ensures forall i | i in s.nodes :: !TimerDue(Play(s, b, events).value, i)
      {
        LeaderStability(s, b, l, t, events, Play(s, b, events).value);
      }
    } else {
      var s := Clocked(map[0 := SITTING, 1 := FOLLOWING], map[0 := {1}, 1 := {0}], multiset{}, 0,
                       map[0 := MIN_TIMEOUT, 1 := MIN_TIMEOUT], map[0 := 0]);
      assert FreshStart(s, b, 0, 1);
      var events, u := Lag(s, b, [], s);
      assert TimerDue(Play(s, b, events).value, 1);
    }
  }

  /** A follower takes a heartbeat that is not too old. */
  ghost predicate Accepts(s: Clocked, e: Event, i: NodeID) {
    e.Act? && e.node == i && i in s.nodes && s.nodes[i].loop.InFollower? && e.input.Receive? &&
    e.input.msg.kind == LeaderHeartbeat && e.input.msg.term >= s.nodes[i].term
  }

  /** A role loop of the node returns to the top of `start`. */
  ghost predicate Returns(s: Clocked, b: Bounds, e: Event, i: NodeID)
    requires Possible(s, b, e)
  {
    e.Act? && e.node == i && !s.nodes[i].loop.Idle? && Advance(s, b, e).nodes[i].loop.Idle?
  }

  /** A timeout is set anew, to 400 up to 799 ms from now, if a follower accepts a heartbeat or a role loop returns,
      and at no other time. */
  lemma TimeoutsExactly(s: Clocked, b: Bounds, e: Event, i: NodeID)
    requires Possible(s, b, e) && i in s.due
    ensures var u := Advance(s, b, e);
      i in u.due &&
      if Accepts(s, e, i) || Returns(s, b, e, i) then s.now + 400 <= u.due[i] < s.now + 800 else u.due[i] == s.due[i]
  {
  }

  lemma QuietInputs(n: Node, input: Input, m: Message)
    requires CanStep(n, input) && !input.Wake? && !input.Beat? && !input.CutLeader?
    ensures m in Step(n, input).out ==> m.kind != LeaderHeartbeat
  {
    match input
    case Say(ms, payload) => BroadcastHonest(n.id, n.term, Custom(payload), ms);
    case Receive(r) =>
    case _ =>
  }

  lemma RoundInputs(n: Node, input: Input, m: Message)
    requires CanStep(n, input) && (input.Wake? || input.Beat? || input.CutLeader?)
    ensures var e := Step(n, input);
      if e.node.loop.InLeader? then e.out == Broadcast(n.id, e.node.term, LeaderHeartbeat, input.members)
      else m in e.out ==> m.kind != LeaderHeartbeat
  {
    match input
    case Wake(ms) => BroadcastHonest(n.id, n.term + 1, VoteRequest, ms);
    case Beat(ms) =>
    case CutLeader(r, k, ms) => PartLeaderHonest(n, r, k);
  }

  /** The instant of a round is recorded, and a step that sends a heartbeat is a round to all members. */
  lemma RoundsExactly(s: Clocked, b: Bounds, e: Event, m: Message)
    requires Possible(s, b, e) && e.Act?
    ensures var n, step, u := s.nodes[e.node], Step(s.nodes[e.node], e.input), Advance(s, b, e);
      if Beats(n, e.input) then
        u.beat == s.beat[e.node := s.now] &&
        step.out == Broadcast(n.id, step.node.term, LeaderHeartbeat, e.input.members)
      else u.beat == s.beat && (m in step.out ==> m.kind != LeaderHeartbeat)
  {
    var n := s.nodes[e.node];
    if e.input.Wake? || e.input.Beat? || e.input.CutLeader? { RoundInputs(n, e.input, m); }
    else { QuietInputs(n, e.input, m); }
  }

  /** The node stays a follower over these events and accepts no heartbeat. */
  ghost predicate Deaf(s: Clocked, b: Bounds, events: seq<Event>, i: NodeID)
    decreases |events|
  {
    Play(s, b, events).Some? && i in Play(s, b, events).value.nodes &&
    Play(s, b, events).value.nodes[i].loop.InFollower? &&
    (events != [] ==>
       var k := |events| - 1;
       Deaf(s, b, events[..k], i) && !Accepts(Play(s, b, events[..k]).value, events[k], i))
  }

  lemma {:induction false} DeafKeepsTimeout(s: Clocked, b: Bounds, events: seq<Event>, i: NodeID)
    requires Deaf(s, b, events, i) && i in s.due
    ensures i in Play(s, b, events).value.due && Play(s, b, events).value.due[i] == s.due[i]
    ensures s.now <= Play(s, b, events).value.now
    decreases |events|
  {
    if events != [] {
      var k := |events| - 1;
      DeafKeepsTimeout(s, b, events[..k], i);
      TimeoutsExactly(Play(s, b, events[..k]).value, b, events[k], i);
    }
  }

  /** A follower that accepted a heartbeat and none after it has its timer due `d` ms later. */
  ghost predicate DetectsWithin(d: nat) {
    forall s: Clocked, b: Bounds, e: Event, events: seq<Event>, i: NodeID ::
      Possible(s, b, e) && Accepts(s, e, i) && Deaf(Advance(s, b, e), b, events, i) &&
      s.now + d <= Play(Advance(s, b, e), b, events).value.now ==>
        TimerDue(Play(Advance(s, b, e), b, events).value, i)
  }

  /** For `d` ms after accepting a heartbeat a follower's timer is not due. */
  ghost predicate PatientFor(d: nat) {
    forall s: Clocked, b: Bounds, e: Event, events: seq<Event>, i: NodeID ::
      Possible(s, b, e) && Accepts(s, e, i) && Deaf(Advance(s, b, e), b, events, i) &&
      Play(Advance(s, b, e), b, events).value.now < s.now + d ==>
        !TimerDue(Play(Advance(s, b, e), b, events).value, i)
  }

  lemma AcceptedTimeout(s: Clocked, b: Bounds, e: Event, events: seq<Event>, i: NodeID)
    requires Possible(s, b, e) && Accepts(s, e, i) && Deaf(Advance(s, b, e), b, events, i)
    ensures var u := Play(Advance(s, b, e), b, events).value;
      i in u.due && s.now + 400 <= u.due[i] < s.now + 800 && i in u.nodes && u.nodes[i].loop.InFollower?
  {
    TimeoutsExactly(s, b, e, i);
    DeafKeepsTimeout(Advance(s, b, e), b, events, i);
  }

  const CALL := Message(0, 1, 1, LeaderHeartbeat)

  /** Node 1 alone, about to accept a heartbeat. */
  const CALLED := Clocked(map[1 := FOLLOWING], map[1 := {}], multiset{Stamped(CALL, 0)}, 0, map[1 := 0], map[])

  const ANY := Bounds(50, 1)

  /** Node 1 alone with an empty network. */
  predicate Alone(s: Clocked) {
    s.nodes.Keys == {1} && s.nodes[1].loop.InFollower? && s.flight == multiset{}
  }

  lemma Called(draw: int)
    requires 400 <= draw < 800
    ensures var e := Act(1, Receive(CALL), draw, 0);
      Possible(CALLED, ANY, e) && Accepts(CALLED, e, 1) &&
      var u := Advance(CALLED, ANY, e);
      Alone(u) && u.now == 0 && 1 in u.due && u.due[1] == draw
  {
  }

  lemma {:induction false} OnlyTicks(s: Clocked, k: nat) returns (events: seq<Event>)
    requires Alone(s) && 1 in s.due
    ensures Deaf(s, ANY, events, 1) && Play(s, ANY, events) == Some(s.(now := s.now + k))
  {
    if k == 0 {
      events := [];
    } else {
      var past := OnlyTicks(s, k - 1);
      PlaySnoc(s, ANY, past, s.(now := s.now + k - 1), Tick);
      events := past + [Tick];
      assert events[..|events| - 1] == past;
    }
  }

  /** With the longest draw the timer is not yet due after fewer than 799 ms. */
  lemma LongestDraw(d: nat)
    requires d < 799
    ensures !DetectsWithin(d)
  {
    var e := Act(1, Receive(CALL), 799, 0);
    Called(799);
    var t := Advance(CALLED, ANY, e);
    var events := OnlyTicks(t, d);
    assert !TimerDue(Play(t, ANY, events).value, 1);
  }

  /** With the shortest draw it is due after 400 ms. */
  lemma ShortestPatience(d: nat)
    requires 400 < d
    ensures !PatientFor(d)
  {
    var e := Act(1, Receive(CALL), 400, 0);
    Called(400);
    var t := Advance(CALLED, ANY, e);
    var events := OnlyTicks(t, 400);
    assert TimerDue(Play(t, ANY, events).value, 1);
  }

  /** Failure detection is exact: a follower that stops hearing heartbeats has its timer due within `d` ms of the
      last one, in every play, if and only if `d` is at least 799. */
  lemma DetectionBoundExact(d: nat)
    ensures DetectsWithin(d) <==> 799 <= d
  {
    if 799 <= d {
      forall s: Clocked, b: Bounds, e: Event, events: seq<Event>, i: NodeID
        | Possible(s, b, e) && Accepts(s, e, i) && Deaf(Advance(s, b, e), b, events, i) &&
          s.now + d <= Play(Advance(s, b, e), b, events).value.now
        ensures TimerDue(Play(Advance(s, b, e), b, events).value, i)
      {
        AcceptedTimeout(s, b, e, events, i);
      }
    } else {
      LongestDraw(d);
    }
  }

  /** Patience is exact: its timer is never due before `d` ms have passed if and only if `d` is at most 400. */
  lemma PatienceExact(d: nat)
    ensures PatientFor(d) <==> d <= 400
  {
    if d <= 400 {
      forall s: Clocked, b: Bounds, e: Event, events: seq<Event>, i: NodeID
        | Possible(s, b, e) && Accepts(s, e, i) && Deaf(Advance(s, b, e), b, events, i) &&
          Play(Advance(s, b, e), b, events).value.now < s.now + d
        ensures !TimerDue(Play(Advance(s, b, e), b, events).value, i)
      {
        AcceptedTimeout(s, b, e, events, i);
      }
    } else {
      ShortestPatience(d);
    }
  }
}
