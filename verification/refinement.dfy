/** A node of the cluster is a `Senator` that was started on that node's inputs. */
module Refinement {
  import opened Types
  import opened Protocol
  import opened System
  import opened Invariants
  import Congress

  /** The inputs that a run resolved at node `i`, in order. */
  function InputsOf(acts: seq<Action>, i: NodeID): seq<Input> {
    if acts == [] then []
    else
      var k := |acts| - 1;
      InputsOf(acts[..k], i) + (if acts[k].Local? && acts[k].node == i then [acts[k].input] else [])
  }

  /** The outbox holds what the cluster records as sent by the node, message for message. */
  ghost predicate SentBy(s: State, i: NodeID, out: multiset<Message>) {
    forall m: Message :: out[m] == if m.from == i then s.sent[m] else 0
  }

  lemma StepSent(s: State, a: Action, i: NodeID, out: multiset<Message>)
    requires Shape(s) && Enabled(s, a) && i in s.nodes && SentBy(s, i, out)
    ensures SentBy(Apply(s, a), i,
                   if a.Local? && a.node == i then out + Step(s.nodes[i], a.input).out else out)
  {
    if a.Local? {
      StepHonest(s.nodes[a.node], a.input);
      var e := Step(s.nodes[a.node], a.input);
      forall m: Message | m.from != a.node ensures e.out[m] == 0 { assert m !in e.out; }
    }
  }

  ghost predicate Replays(s: State, inputs: seq<Input>, i: NodeID, t: Trace) {
    i in s.nodes && Replay(Trace(NewNode(i), multiset{}), inputs, 0) == Some(t) &&
    t.node == s.nodes[i] && SentBy(s, i, t.out)
  }

  lemma ReplayOn(s: State, a: Action, inputs: seq<Input>, i: NodeID, t: Trace) returns (t': Trace)
    requires Shape(s) && Enabled(s, a) && Replays(s, inputs, i, t)
    ensures Replays(Apply(s, a), inputs + (if a.Local? && a.node == i then [a.input] else []), i, t')
  {
    StepSent(s, a, i, t.out);
    if a.Local? && a.node == i {
      ReplaySnoc(Trace(NewNode(i), multiset{}), inputs, 0, a.input);
      var e := Step(t.node, a.input);
      t' := Trace(e.node, t.out + e.out);
    } else {
      assert inputs + [] == inputs;
      t' := t;
    }
  }

  /** Replaying the inputs of a node from its constructor's state gives that node of the cluster and its messages. */
  lemma {:induction false} RunIsReplay(members: map<NodeID, set<NodeID>>, acts: seq<Action>, s: State, i: NodeID)
    returns (t: Trace)
    requires Run(Init(members), acts) == Some(s) && i in s.nodes
    ensures Replays(s, InputsOf(acts, i), i, t)
    decreases |acts|
  {
    if acts == [] {
      t := Trace(NewNode(i), multiset{});
    } else {
      var k := |acts| - 1;
      var u := Run(Init(members), acts[..k]).value;
      InitInv(members);
      RunInv(Init(members), acts[..k]);
      KeepShape(u, acts[k]);
      t := RunIsReplay(members, acts[..k], u, i);
      t := ReplayOn(u, acts[k], InputsOf(acts[..k], i), i, t);
    }
  }

  /** So the object that the source's loops run, given what the cluster resolved at node `i`, ends as that node. */
  method RunSenator(members: map<NodeID, set<NodeID>>, acts: seq<Action>, ghost s: State, i: NodeID)
    returns (senator: Congress.Senator)
    requires Run(Init(members), acts) == Some(s) && i in s.nodes
    ensures senator.View() == s.nodes[i] && SentBy(s, i, senator.outbox)
  {
    senator := new Congress.Senator(i);
    ghost var t := RunIsReplay(members, acts, s, i);
    senator.Start(InputsOf(acts, i));
  }
}
