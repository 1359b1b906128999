/** The table of connections that `RPCNetwork` keeps, and how it resolves duplicates. */
module PeerTable {
  import opened Types

  /** A connection seen from one end; `conn` names the stream that both ends share. */
  datatype Peer = Peer(establishedBy: NodeID, peerId: NodeID, conn: nat)

  /** The close channel of a peer task: usable, used by a removal, or lost by overwriting its entry. */
  datatype Channel = Open | Signalled | Dropped

  datatype Entry = Entry(close: nat, peer: Peer)

  datatype Table = Table(ourId: NodeID, peers: map<NodeID, Entry>, channels: seq<Channel>)

  datatype Outcome = Ok | NotOurs | Duplicate

  predicate Acceptable(us: NodeID, p: Peer) {
    p.establishedBy == us || p.establishedBy == p.peerId
  }

  /** Channel numbers in the table are real; what `channels` says of them is the invariant below. */
  predicate InRange(t: Table) {
    forall id | id in t.peers :: t.peers[id].close < |t.channels|
  }

  function Close(t: Table, id: NodeID): Table
    requires InRange(t)
  {
    if id in t.peers then
      t.(peers := t.peers - {id}, channels := t.channels[t.peers[id].close := Signalled])
    else t
  }

  /** Inserting over an entry drops its close sender. */
  function Insert(t: Table, p: Peer): Table
    requires InRange(t)
  {
    var kept := if p.peerId in t.peers then t.channels[t.peers[p.peerId].close := Dropped] else t.channels;
    t.(peers := t.peers[p.peerId := Entry(|t.channels|, p)], channels := kept + [Open])
  }

  /** `add_peer` as written: its branch for a lower `established_by` does not return. */
  function Add(t: Table, p: Peer): Table
    requires InRange(t)
  {
    if !Acceptable(t.ourId, p) then t
    else if p.peerId !in t.peers then Insert(t, p)
    else
      var existing := t.peers[p.peerId].peer;
      if p.establishedBy == existing.establishedBy then t
      else if p.establishedBy > existing.establishedBy then Insert(Close(t, p.peerId), p)
      else Insert(t, p)
  }

  /** `add_peer` as its comments state it: a lower `established_by` is not added. */
  function AddByPolicy(t: Table, p: Peer): Table
    requires InRange(t)
  {
    if p.peerId in t.peers && p.establishedBy < t.peers[p.peerId].peer.establishedBy then t else Add(t, p)
  }

  function Answer(t: Table, p: Peer): Outcome {
    if !Acceptable(t.ourId, p) then NotOurs
    else if p.peerId in t.peers && p.establishedBy == t.peers[p.peerId].peer.establishedBy then Duplicate
    else Ok
  }

  /** Every entry is under its own id and was established by us or by that peer. */
  ghost predicate EntriesFit(t: Table) {
    forall id | id in t.peers :: t.peers[id].peer.peerId == id && Acceptable(t.ourId, t.peers[id].peer)
  }

  /** Every entry has its own open close channel. */
  ghost predicate EntriesOpen(t: Table) {
    InRange(t) &&
    (forall id | id in t.peers :: t.channels[t.peers[id].close] == Open) &&
    (forall id, jd | id in t.peers && jd in t.peers && t.peers[id].close == t.peers[jd].close :: id == jd)
  }

  predicate Held(t: Table, c: nat) {
    exists id | id in t.peers :: t.peers[id].close == c
  }

  /** No close channel is open unless an entry holds it. */
  ghost predicate OpenHeld(t: Table) {
    forall c: nat | c < |t.channels| && t.channels[c] == Open :: Held(t, c)
  }

  /** The open connections are exactly those of the table, at most one per id. */
  ghost predicate OneOpenPerPeer(t: Table) {
    EntriesFit(t) && EntriesOpen(t) && OpenHeld(t)
  }

  lemma CloseKeeps(t: Table, id: NodeID)
    requires OneOpenPerPeer(t)
    ensures OneOpenPerPeer(Close(t, id))
  {
    if id in t.peers {
      var u := Close(t, id);
      forall c: nat | c < |u.channels| && u.channels[c] == Open ensures Held(u, c) {
        assert Held(t, c);
        var jd :| jd in t.peers && t.peers[jd].close == c;
        assert jd in u.peers && u.peers[jd].close == c;
      }
    }
  }

  lemma InsertHeld(t: Table, p: Peer, c: nat)
    requires EntriesOpen(t) && OpenHeld(t)
    requires c < |Insert(t, p).channels| && Insert(t, p).channels[c] == Open
    ensures Held(Insert(t, p), c)
  {
    var u := Insert(t, p);
    if c == |t.channels| {
      assert p.peerId in u.peers && u.peers[p.peerId].close == c;
    } else {
      assert Held(t, c);
      var jd :| jd in t.peers && t.peers[jd].close == c;
      assert jd in u.peers && u.peers[jd].close == c;
    }
  }

  lemma InsertKeeps(t: Table, p: Peer)
    requires OneOpenPerPeer(t) && Acceptable(t.ourId, p)
    ensures OneOpenPerPeer(Insert(t, p))
  {
    var u := Insert(t, p);
    assert EntriesFit(u);
    assert EntriesOpen(u);
    forall c: nat | c < |u.channels| && u.channels[c] == Open ensures Held(u, c) {
      InsertHeld(t, p, c);
    }
  }

  /** `add_peer` answers Ok if and only if it opened a new channel, and otherwise changed nothing.  It answers that a
      connection is a duplicate exactly if the table holds one to that id by the same establisher. */
  lemma AnswersExactly(t: Table, p: Peer)
    requires OneOpenPerPeer(t)
    ensures Answer(t, p) == Ok <==> |Add(t, p).channels| == |t.channels| + 1
    ensures Answer(t, p) != Ok ==> Add(t, p) == t
    ensures Answer(t, p) == Duplicate <==>
            p.peerId in t.peers && t.peers[p.peerId].peer.establishedBy == p.establishedBy
    ensures Answer(t, p) == NotOurs <==> p.establishedBy != t.ourId && p.establishedBy != p.peerId
  {
  }

  /** By the policy it answers Ok if and only if the entry afterwards is the offer on a new channel, or was
      established by a strictly higher id; and otherwise changed nothing. */
  lemma PolicyAnswersExactly(t: Table, p: Peer)
    requires OneOpenPerPeer(t)
    ensures var u := AddByPolicy(t, p);
      (Answer(t, p) == Ok <==>
         Acceptable(t.ourId, p) && p.peerId in u.peers &&
         (u.peers[p.peerId] == Entry(|t.channels|, p) || u.peers[p.peerId].peer.establishedBy > p.establishedBy)) &&
      (Answer(t, p) != Ok ==> u == t)
  {
  }

  /** Removal takes out that entry, signals its channel, and leaves every other entry and channel. */
  lemma ClosesOnly(t: Table, id: NodeID)
    requires OneOpenPerPeer(t)
    ensures var u := Close(t, id);
      u.ourId == t.ourId && u.peers == t.peers - {id} && |u.channels| == |t.channels| &&
      forall c: nat | c < |t.channels| ::
        u.channels[c] == if id in t.peers && t.peers[id].close == c then Signalled else t.channels[c]
  {
  }

  lemma AddKeeps(t: Table, p: Peer)
    requires OneOpenPerPeer(t)
    ensures OneOpenPerPeer(Add(t, p)) && OneOpenPerPeer(AddByPolicy(t, p))
  {
    if Acceptable(t.ourId, p) {
      CloseKeeps(t, p.peerId);
      InsertKeeps(t, p);
      InsertKeeps(Close(t, p.peerId), p);
    }
  }

  datatype Call = AddPeer(peer: Peer) | RemovePeer(id: NodeID)

  function NewTable(us: NodeID): Table {
    Table(us, map[], [])
  }

  /** The table after a sequence of calls, with `add_peer` as written or by its policy. */
  ghost function After(us: NodeID, calls: seq<Call>, policy: bool): (t: Table)
    ensures OneOpenPerPeer(t) && t.ourId == us
  {
    if calls == [] then NewTable(us)
    else
      var k := |calls| - 1;
      var t := After(us, calls[..k], policy);
      match calls[k]
      case AddPeer(p) => AddKeeps(t, p); if policy then AddByPolicy(t, p) else Add(t, p)
      case RemovePeer(id) => CloseKeeps(t, id); Close(t, id)
  }

  /** This call offers a connection below the one that channel `c` serves, and is accepted all the same. */
  ghost predicate Displaces(t: Table, call: Call, c: nat) {
    call.AddPeer? && Acceptable(t.ourId, call.peer) && call.peer.peerId in t.peers &&
    t.peers[call.peer.peerId].close == c &&
    call.peer.establishedBy < t.peers[call.peer.peerId].peer.establishedBy
  }

  /** This call removes the entry that channel `c` serves, or offers one above it. */
  ghost predicate Ends(t: Table, call: Call, c: nat) {
    if call.RemovePeer? then call.id in t.peers && t.peers[call.id].close == c
    else
      Acceptable(t.ourId, call.peer) && call.peer.peerId in t.peers && t.peers[call.peer.peerId].close == c &&
      call.peer.establishedBy > t.peers[call.peer.peerId].peer.establishedBy
  }

  ghost function AfterCall(t: Table, call: Call, policy: bool): Table
    requires OneOpenPerPeer(t)
  {
    match call
    case AddPeer(p) => if policy then AddByPolicy(t, p) else Add(t, p)
    case RemovePeer(id) => Close(t, id)
  }

  /** What one call does to a channel. */
  lemma CallChannel(t: Table, call: Call, policy: bool, c: nat)
    requires OneOpenPerPeer(t)
    ensures var u := AfterCall(t, call, policy);
      |t.channels| <= |u.channels| &&
      (c < |u.channels| ==>
         u.channels[c] == (if |t.channels| <= c then Open
                           else if Ends(t, call, c) then Signalled
                           else if Displaces(t, call, c) && !policy then Dropped
                           else t.channels[c]))
    ensures Ends(t, call, c) || Displaces(t, call, c) ==> c < |t.channels| && t.channels[c] == Open
  {
  }

  /** The call at position `k` displaced or ended channel `c`. */
  ghost predicate DisplacedAt(us: NodeID, calls: seq<Call>, policy: bool, k: nat, c: nat) {
    k < |calls| && Displaces(After(us, calls[..k], policy), calls[k], c)
  }

  ghost predicate EndedAt(us: NodeID, calls: seq<Call>, policy: bool, k: nat, c: nat) {
    k < |calls| && Ends(After(us, calls[..k], policy), calls[k], c)
  }

  lemma AtPrefix(us: NodeID, calls: seq<Call>, policy: bool, k: nat, c: nat)
    requires calls != [] && k < |calls| - 1
    ensures DisplacedAt(us, calls, policy, k, c) <==> DisplacedAt(us, calls[..|calls| - 1], policy, k, c)
    ensures EndedAt(us, calls, policy, k, c) <==> EndedAt(us, calls[..|calls| - 1], policy, k, c)
  {
    assert calls[..|calls| - 1][..k] == calls[..k];
  }

  ghost predicate EverEnded(us: NodeID, calls: seq<Call>, policy: bool, c: nat) {
    exists k: nat :: EndedAt(us, calls, policy, k, c)
  }

  ghost predicate EverDisplaced(us: NodeID, calls: seq<Call>, policy: bool, c: nat) {
    exists k: nat :: DisplacedAt(us, calls, policy, k, c)
  }

  lemma EndedSnoc(us: NodeID, calls: seq<Call>, policy: bool, c: nat)
    requires calls != []
    ensures var n := |calls| - 1;
      EverEnded(us, calls, policy, c) <==>
        EverEnded(us, calls[..n], policy, c) || Ends(After(us, calls[..n], policy), calls[n], c)
  {
    var n := |calls| - 1;
    if EverEnded(us, calls, policy, c) {
      var k: nat :| EndedAt(us, calls, policy, k, c);
      if k < n { AtPrefix(us, calls, policy, k, c); }
    }
    if EverEnded(us, calls[..n], policy, c) {
      var k: nat :| EndedAt(us, calls[..n], policy, k, c);
      AtPrefix(us, calls, policy, k, c);
    }
    assert EndedAt(us, calls, policy, n, c) <==> Ends(After(us, calls[..n], policy), calls[n], c);
  }

  lemma DisplacedSnoc(us: NodeID, calls: seq<Call>, policy: bool, c: nat)
    requires calls != []
    ensures var n := |calls| - 1;
      EverDisplaced(us, calls, policy, c) <==>
        EverDisplaced(us, calls[..n], policy, c) || Displaces(After(us, calls[..n], policy), calls[n], c)
  {
    var n := |calls| - 1;
    if EverDisplaced(us, calls, policy, c) {
      var k: nat :| DisplacedAt(us, calls, policy, k, c);
      if k < n { AtPrefix(us, calls, policy, k, c); }
    }
    if EverDisplaced(us, calls[..n], policy, c) {
      var k: nat :| DisplacedAt(us, calls[..n], policy, k, c);
      AtPrefix(us, calls, policy, k, c);
    }
    assert DisplacedAt(us, calls, policy, n, c) <==> Displaces(After(us, calls[..n], policy), calls[n], c);
  }

  /** Over any calls: a channel was signalled if and only if some call ended it, and it was dropped without a signal
      if and only if, as written, some lower offer displaced it.  By the policy none is ever dropped. */
  lemma {:induction false} ChannelsExactly(us: NodeID, calls: seq<Call>, policy: bool, c: nat)
    ensures c < |After(us, calls, policy).channels| ==>
      (After(us, calls, policy).channels[c] == Signalled <==> EverEnded(us, calls, policy, c)) &&
      (After(us, calls, policy).channels[c] == Dropped <==> !policy && EverDisplaced(us, calls, policy, c))
    ensures |After(us, calls, policy).channels| <= c ==>
      !EverEnded(us, calls, policy, c) && !EverDisplaced(us, calls, policy, c)
    decreases |calls|
  {
    if calls != [] {
      var n := |calls| - 1;
      ChannelsExactly(us, calls[..n], policy, c);
      CallChannel(After(us, calls[..n], policy), calls[n], policy, c);
      EndedSnoc(us, calls, policy, c);
      DisplacedSnoc(us, calls, policy, c);
    }
  }

  ghost function Offers(peers: seq<Peer>): (calls: seq<Call>)
    ensures |calls| == |peers| && forall k | 0 <= k < |peers| :: calls[k] == AddPeer(peers[k])
  {
    seq(|peers|, k requires 0 <= k < |peers| => AddPeer(peers[k]))
  }

  /** The table after offering these connections in this order. */
  ghost function AfterOffers(us: NodeID, peers: seq<Peer>, policy: bool): Table {
    After(us, Offers(peers), policy)
  }

  lemma AfterOffer(us: NodeID, peers: seq<Peer>, policy: bool)
    requires peers != []
    ensures var t := AfterOffers(us, peers[..|peers| - 1], policy);
      OneOpenPerPeer(t) && t.ourId == us &&
      AfterOffers(us, peers, policy) ==
        if policy then AddByPolicy(t, peers[|peers| - 1]) else Add(t, peers[|peers| - 1])
  {
    assert Offers(peers)[..|peers| - 1] == Offers(peers[..|peers| - 1]);
  }

  /** An offer that counts for `id`. */
  predicate Counts(us: NodeID, p: Peer, id: NodeID) {
    p.peerId == id && Acceptable(us, p)
  }

  /** What one offer does to the entry of `id`. */
  lemma AddAt(t: Table, p: Peer, id: NodeID)
    requires OneOpenPerPeer(t)
    ensures var u := Add(t, p);
      if Counts(t.ourId, p, id) then
        id in u.peers &&
        u.peers[id].peer ==
          (if id in t.peers && t.peers[id].peer.establishedBy == p.establishedBy then t.peers[id].peer else p)
      else (id in u.peers <==> id in t.peers) && (id in t.peers ==> u.peers[id] == t.peers[id])
  {
  }

  lemma AddByPolicyAt(t: Table, p: Peer, id: NodeID)
    requires OneOpenPerPeer(t)
    ensures var u := AddByPolicy(t, p);
      if Counts(t.ourId, p, id) then
        id in u.peers &&
        u.peers[id].peer ==
          (if id in t.peers && p.establishedBy <= t.peers[id].peer.establishedBy then t.peers[id].peer else p)
      else (id in u.peers <==> id in t.peers) && (id in t.peers ==> u.peers[id] == t.peers[id])
  {
    AddAt(t, p, id);
  }

  /** By the policy, each entry is the maximum of what was offered, whatever the order. */
  lemma {:induction false} PolicyKeepsMaximum(us: NodeID, peers: seq<Peer>, id: NodeID)
    ensures var t := AfterOffers(us, peers, true);
      (id in t.peers <==> exists p :: p in peers && Counts(us, p, id)) &&
      (id in t.peers ==>
         t.peers[id].peer in peers && Counts(us, t.peers[id].peer, id) &&
         forall p | p in peers && Counts(us, p, id) :: p.establishedBy <= t.peers[id].peer.establishedBy)
    decreases |peers|
  {
    if peers != [] {
      var k := |peers| - 1;
      AfterOffer(us, peers, true);
      PolicyKeepsMaximum(us, peers[..k], id);
      AddByPolicyAt(AfterOffers(us, peers[..k], true), peers[k], id);
      assert forall p :: p in peers <==> p in peers[..k] || p == peers[k];
    }
  }

  /** The position of the first offer for `id` that is a maximum. */
  ghost predicate FirstMaximum(us: NodeID, peers: seq<Peer>, f: nat, id: NodeID) {
    f < |peers| && Counts(us, peers[f], id) &&
    (forall j | 0 <= j < f && Counts(us, peers[j], id) :: peers[j].establishedBy < peers[f].establishedBy) &&
    (forall j | f < j < |peers| && Counts(us, peers[j], id) :: peers[j].establishedBy <= peers[f].establishedBy)
  }

  lemma FirstMaximumSnoc(us: NodeID, peers: seq<Peer>, f: nat, id: NodeID)
    requires peers != [] && FirstMaximum(us, peers[..|peers| - 1], f, id)
    ensures var p := peers[|peers| - 1];
      if Counts(us, p, id) && peers[f].establishedBy < p.establishedBy then FirstMaximum(us, peers, |peers| - 1, id)
      else FirstMaximum(us, peers, f, id)
  {
    assert forall j | 0 <= j < |peers| - 1 :: peers[..|peers| - 1][j] == peers[j];
  }

  /** By the policy, the connection that is kept is the first of the maximal offers. */
  lemma {:induction false} PolicyKeepsFirst(us: NodeID, peers: seq<Peer>, id: NodeID) returns (f: nat)
    requires id in AfterOffers(us, peers, true).peers
    ensures FirstMaximum(us, peers, f, id) && AfterOffers(us, peers, true).peers[id].peer == peers[f]
    decreases |peers|
  {
    assert peers != [];
    var n := |peers| - 1;
    var t := AfterOffers(us, peers[..n], true);
    AfterOffer(us, peers, true);
    AddByPolicyAt(t, peers[n], id);
    PolicyKeepsMaximum(us, peers[..n], id);
    f := n;
    if id in t.peers {
      var g := PolicyKeepsFirst(us, peers[..n], id);
      FirstMaximumSnoc(us, peers, g, id);
      if !Counts(us, peers[n], id) || peers[n].establishedBy <= peers[g].establishedBy { f := g; }
    } else {
      NothingCounts(us, peers, id);
    }
  }

  /** An offer that counts when none did before. */
  lemma NothingCounts(us: NodeID, peers: seq<Peer>, id: NodeID)
    requires peers != [] && Counts(us, peers[|peers| - 1], id)
    requires forall p | p in peers[..|peers| - 1] :: !Counts(us, p, id)
    ensures FirstMaximum(us, peers, |peers| - 1, id) && LastBlock(us, peers, |peers| - 1, id)
  {
    assert forall j | 0 <= j < |peers| - 1 :: peers[j] in peers[..|peers| - 1];
  }

  lemma FirstMaximumUnique(us: NodeID, peers: seq<Peer>, f: nat, g: nat, id: NodeID)
    requires FirstMaximum(us, peers, f, id) && FirstMaximum(us, peers, g, id)
    ensures f == g
  {
  }

  /** No connection to `id` was dialled again by the same node. */
  ghost predicate DialledOnce(us: NodeID, peers: seq<Peer>, id: NodeID) {
    forall p, q | p in peers && q in peers && Counts(us, p, id) && Counts(us, q, id) &&
                  p.establishedBy == q.establishedBy :: p == q
  }

  /** Tables that were offered the same connections, in any order and with any repetition, have entries
      for the same ids established by the same nodes, and keep the same connections unless one was redialled. */
  lemma PolicyIgnoresOrder(us: NodeID, a: seq<Peer>, b: seq<Peer>, id: NodeID)
    requires forall p :: p in a <==> p in b
    ensures var t, u := AfterOffers(us, a, true), AfterOffers(us, b, true);
      (id in t.peers <==> id in u.peers) &&
      (id in t.peers ==> t.peers[id].peer.establishedBy == u.peers[id].peer.establishedBy) &&
      (id in t.peers && DialledOnce(us, a, id) ==> t.peers[id].peer == u.peers[id].peer)
  {
    PolicyKeepsMaximum(us, a, id);
    PolicyKeepsMaximum(us, b, id);
  }

  /** The order decides between redialled connections: the same one is kept if and only if the first
      maximal offers, at `f` and `g`, are the same. */
  lemma PolicyOrderExactly(us: NodeID, a: seq<Peer>, b: seq<Peer>, f: nat, g: nat, id: NodeID)
    requires FirstMaximum(us, a, f, id) && FirstMaximum(us, b, g, id)
    ensures var t, u := AfterOffers(us, a, true), AfterOffers(us, b, true);
      id in t.peers && id in u.peers && (t.peers[id].peer == u.peers[id].peer <==> a[f] == b[g])
  {
    assert a[f] in a && b[g] in b;
    PolicyKeepsMaximum(us, a, id);
    PolicyKeepsMaximum(us, b, id);
    var x := PolicyKeepsFirst(us, a, id);
    var y := PolicyKeepsFirst(us, b, id);
    FirstMaximumUnique(us, a, f, x, id);
    FirstMaximumUnique(us, b, g, y, id);
  }

  /** Every entry is one of the offers. */
  lemma {:induction false} WrittenEntries(us: NodeID, peers: seq<Peer>, id: NodeID)
    ensures var t := AfterOffers(us, peers, false);
      id in t.peers ==> t.peers[id].peer in peers && Counts(us, t.peers[id].peer, id)
    decreases |peers|
  {
    if peers != [] {
      var n := |peers| - 1;
      AfterOffer(us, peers, false);
      WrittenEntries(us, peers[..n], id);
      AddAt(AfterOffers(us, peers[..n], false), peers[n], id);
      assert forall p :: p in peers <==> p in peers[..n] || p == peers[n];
    }
  }

  /** The position of the last offer that counts for `id`. */
  ghost predicate LastOffer(us: NodeID, peers: seq<Peer>, k: nat, id: NodeID) {
    k < |peers| && Counts(us, peers[k], id) && forall j | k < j < |peers| :: !Counts(us, peers[j], id)
  }

  /** As written, each entry has the `established_by` of the last acceptable offer. */
  lemma {:induction false} WrittenKeepsLast(us: NodeID, peers: seq<Peer>, k: nat, id: NodeID)
    requires LastOffer(us, peers, k, id)
    ensures var t := AfterOffers(us, peers, false);
      id in t.peers && t.peers[id].peer in peers && t.peers[id].peer.establishedBy == peers[k].establishedBy
    decreases |peers|
  {
    var n := |peers| - 1;
    WrittenEntries(us, peers, id);
    AfterOffer(us, peers, false);
    AddAt(AfterOffers(us, peers[..n], false), peers[n], id);
    if k < n { WrittenKeepsLast(us, peers[..n], k, id); }
  }

  /** The position where the last block of offers for `id` by one establisher begins. */
  ghost predicate LastBlock(us: NodeID, peers: seq<Peer>, b: nat, id: NodeID) {
    b < |peers| && Counts(us, peers[b], id) &&
    (forall j | b < j < |peers| && Counts(us, peers[j], id) :: peers[j].establishedBy == peers[b].establishedBy) &&
    (forall i: nat | i < b && LastOffer(us, peers[..b], i, id) :: peers[i].establishedBy != peers[b].establishedBy)
  }

  lemma LastBlockSnoc(us: NodeID, peers: seq<Peer>, b: nat, id: NodeID)
    requires peers != [] && LastBlock(us, peers[..|peers| - 1], b, id)
    ensures var p := peers[|peers| - 1];
      if Counts(us, p, id) && peers[b].establishedBy != p.establishedBy then LastBlock(us, peers, |peers| - 1, id)
      else LastBlock(us, peers, b, id)
  {
    var n := |peers| - 1;
    assert forall j | 0 <= j < n :: peers[..n][j] == peers[j];
    assert peers[..n][..b] == peers[..b];
    forall i: nat | i < n && LastOffer(us, peers[..n], i, id)
      ensures peers[i].establishedBy == peers[b].establishedBy
    {
      assert b <= i by { assert Counts(us, peers[..n][b], id); }
    }
  }

  /** As written, the connection that is kept is the first of the last block. */
  lemma {:induction false} WrittenKeepsBlock(us: NodeID, peers: seq<Peer>, id: NodeID) returns (b: nat)
    requires id in AfterOffers(us, peers, false).peers
    ensures LastBlock(us, peers, b, id) && AfterOffers(us, peers, false).peers[id].peer == peers[b]
    decreases |peers|
  {
    assert peers != [];
    var n := |peers| - 1;
    var t := AfterOffers(us, peers[..n], false);
    AfterOffer(us, peers, false);
    AddAt(t, peers[n], id);
    b := n;
    if id in t.peers {
      var c := WrittenKeepsBlock(us, peers[..n], id);
      LastBlockSnoc(us, peers, c, id);
      if !Counts(us, peers[n], id) || peers[n].establishedBy == peers[c].establishedBy { b := c; }
    } else {
      WrittenMisses(us, peers[..n], id);
      NothingCounts(us, peers, id);
    }
  }

  /** An id is in the table exactly if an offer counted for it. */
  lemma {:induction false} WrittenMisses(us: NodeID, peers: seq<Peer>, id: NodeID)
    ensures id in AfterOffers(us, peers, false).peers <==> exists p :: p in peers && Counts(us, p, id)
    decreases |peers|
  {
    if peers != [] {
      var n := |peers| - 1;
      AfterOffer(us, peers, false);
      WrittenMisses(us, peers[..n], id);
      AddAt(AfterOffers(us, peers[..n], false), peers[n], id);
      assert forall p :: p in peers <==> p in peers[..n] || p == peers[n];
    }
  }

  /** The offers for `id` are all different, as different connections are. */
  ghost predicate AllDifferent(us: NodeID, peers: seq<Peer>, id: NodeID) {
    forall i, j | 0 <= i < j < |peers| && Counts(us, peers[i], id) && Counts(us, peers[j], id) :: peers[i] != peers[j]
  }

  /** The offers for `id` never come with a lower `established_by` than one before. */
  ghost predicate Ascending(us: NodeID, peers: seq<Peer>, id: NodeID) {
    forall i, j | 0 <= i < j < |peers| && Counts(us, peers[i], id) && Counts(us, peers[j], id) ::
      peers[i].establishedBy <= peers[j].establishedBy
  }

  lemma LastBefore(us: NodeID, peers: seq<Peer>, j: nat, id: NodeID) returns (i: nat)
    requires j < |peers| && Counts(us, peers[j], id)
    ensures j <= i && LastOffer(us, peers, i, id)
    decreases |peers|
  {
    var n := |peers| - 1;
    if Counts(us, peers[n], id) { i := n; } else { i := LastBefore(us, peers[..n], j, id); }
  }

  /** Ascending offers end in the block of their maximum. */
  lemma AscendingBlock(us: NodeID, peers: seq<Peer>, f: nat, b: nat, id: NodeID)
    requires FirstMaximum(us, peers, f, id) && LastBlock(us, peers, b, id) && Ascending(us, peers, id)
    ensures f == b
  {
    if f < b {
      var i := LastBefore(us, peers[..b], f, id);
    }
  }

  /** Only two nodes can have established a connection to `id`, so below the maximum there is one value. */
  lemma BlockAscending(us: NodeID, peers: seq<Peer>, f: nat, id: NodeID)
    requires FirstMaximum(us, peers, f, id) && LastBlock(us, peers, f, id)
    ensures Ascending(us, peers, id)
  {
  }

  /** As written, the table keeps the connection that the policy keeps if and only if the offers for `id`
      come in ascending order of `established_by`. */
  lemma WrittenIsPolicyExactly(us: NodeID, peers: seq<Peer>, id: NodeID)
    requires AllDifferent(us, peers, id)
    ensures var t, u := AfterOffers(us, peers, false), AfterOffers(us, peers, true);
      (id in t.peers <==> id in u.peers) &&
      (id in t.peers ==> (t.peers[id].peer == u.peers[id].peer <==> Ascending(us, peers, id)))
  {
    WrittenMisses(us, peers, id);
    PolicyKeepsMaximum(us, peers, id);
    if id in AfterOffers(us, peers, false).peers {
      var b := WrittenKeepsBlock(us, peers, id);
      var f := PolicyKeepsFirst(us, peers, id);
      if Ascending(us, peers, id) { AscendingBlock(us, peers, f, b, id); }
      if f == b { BlockAscending(us, peers, f, id); }
    }
  }

  /** As written, the entry for `id` has the policy's `established_by` exactly when the last acceptable
      offer is a maximum. */
  lemma WrittenMeetsPolicyExactly(us: NodeID, peers: seq<Peer>, k: nat, id: NodeID)
    requires LastOffer(us, peers, k, id)
    ensures var t, u := AfterOffers(us, peers, false), AfterOffers(us, peers, true);
      id in t.peers && id in u.peers &&
      (t.peers[id].peer.establishedBy == u.peers[id].peer.establishedBy <==>
       forall p | p in peers && Counts(us, p, id) :: p.establishedBy <= peers[k].establishedBy)
  {
    WrittenKeepsLast(us, peers, k, id);
    PolicyKeepsMaximum(us, peers, id);
    assert peers[k] in peers;
  }

  /** One call as written does what the policy says exactly when the fall-through branch is not taken. */
  lemma FallThroughExactly(t: Table, p: Peer)
    requires OneOpenPerPeer(t)
    ensures Add(t, p) == AddByPolicy(t, p) <==>
      !(Acceptable(t.ourId, p) && p.peerId in t.peers && p.establishedBy < t.peers[p.peerId].peer.establishedBy)
  {
    if Acceptable(t.ourId, p) && p.peerId in t.peers && p.establishedBy < t.peers[p.peerId].peer.establishedBy {
      assert |Add(t, p).channels| == |t.channels| + 1;
    }
  }

  /** The two ends of a connection: who dialled it registers itself, who accepted it registers the dialler. */
  function Dialled(us: NodeID, them: NodeID, conn: nat): Peer {
    Peer(us, them, conn)
  }

  function Accepted(dialler: NodeID, conn: nat): Peer {
    Peer(dialler, dialler, conn)
  }

  /** At `us`, every offer about `them` is the connection we dialled or the one they dialled, and both came. */
  ghost predicate Crossed(us: NodeID, them: NodeID, ours: nat, theirs: nat, peers: seq<Peer>) {
    Dialled(us, them, ours) in peers && Accepted(them, theirs) in peers &&
    forall p | p in peers && p.peerId == them :: p == Dialled(us, them, ours) || p == Accepted(them, theirs)
  }

  /** By the policy both ends keep the same connection: the one dialled by the node with the higher id. */
  lemma BothEndsAgree(a: NodeID, b: NodeID, ca: nat, cb: nat, atA: seq<Peer>, atB: seq<Peer>)
    requires a != b && Crossed(a, b, ca, cb, atA) && Crossed(b, a, cb, ca, atB)
    ensures var t, u := AfterOffers(a, atA, true), AfterOffers(b, atB, true);
      b in t.peers && a in u.peers &&
      t.peers[b].peer.conn == u.peers[a].peer.conn == (if a > b then ca else cb) &&
      t.peers[b].peer.establishedBy == u.peers[a].peer.establishedBy == (if a > b then a else b)
  {
    PolicyKeepsMaximum(a, atA, b);
    PolicyKeepsMaximum(b, atB, a);
    assert Counts(a, Dialled(a, b, ca), b) && Counts(a, Accepted(b, cb), b);
    assert Counts(b, Dialled(b, a, cb), a) && Counts(b, Accepted(a, ca), a);
  }

  /** As written, both ends keep the same connection exactly when the last offers at the two ends,
      at positions `i` and `j`, were established by the same node. */
  lemma WrittenEndsAgreeExactly(a: NodeID, b: NodeID, ca: nat, cb: nat, atA: seq<Peer>, atB: seq<Peer>, i: nat, j: nat)
    requires a != b && ca != cb && Crossed(a, b, ca, cb, atA) && Crossed(b, a, cb, ca, atB)
    requires LastOffer(a, atA, i, b) && LastOffer(b, atB, j, a)
    ensures var t, u := AfterOffers(a, atA, false), AfterOffers(b, atB, false);
      b in t.peers && a in u.peers &&
      (t.peers[b].peer.conn == u.peers[a].peer.conn <==> atA[i].establishedBy == atB[j].establishedBy)
  {
    WrittenKeepsLast(a, atA, i, b);
    WrittenKeepsLast(b, atB, j, a);
    WrittenEntries(a, atA, b);
    WrittenEntries(b, atB, a);
  }

  /** As written, dialling after accepting keeps the dialled connection, even the lower one. */
  lemma DialledLastStays(us: NodeID, them: NodeID, ours: nat, theirs: nat)
    requires us != them
    ensures var peers := [Accepted(them, theirs), Dialled(us, them, ours)];
      Crossed(us, them, ours, theirs, peers) && them in AfterOffers(us, peers, false).peers &&
      AfterOffers(us, peers, false).peers[them].peer.conn == ours
  {
    var peers := [Accepted(them, theirs), Dialled(us, them, ours)];
    WrittenKeepsLast(us, peers, 1, them);
    assert peers[0] in peers && peers[1] in peers;
  }

  /** A run where the two ends, as written, keep different connections. */
  lemma WrittenEndsDiffer() returns (atA: seq<Peer>, atB: seq<Peer>)
    ensures Crossed(1, 2, 10, 20, atA) && Crossed(2, 1, 20, 10, atB)
    ensures var t, u := AfterOffers(1, atA, false), AfterOffers(2, atB, false);
      2 in t.peers && 1 in u.peers && t.peers[2].peer.conn == 10 && u.peers[1].peer.conn == 20
  {
    atA := [Accepted(2, 20), Dialled(1, 2, 10)];
    atB := [Accepted(1, 10), Dialled(2, 1, 20)];
    DialledLastStays(1, 2, 10, 20);
    DialledLastStays(2, 1, 20, 10);
  }

  /** After any calls, under either reading of the branch, the open connections are the table's. */
  lemma OpenConnectionsAreTheTable(us: NodeID, calls: seq<Call>, policy: bool, c: nat)
    ensures var t := After(us, calls, policy);
      c < |t.channels| ==> (t.channels[c] == Open <==> Held(t, c))
    ensures forall id | id in After(us, calls, policy).peers ::
      var p := After(us, calls, policy).peers[id].peer;
      p.peerId == id && (p.establishedBy == us || p.establishedBy == id)
  {
  }

  ghost function OpenChannels(t: Table): set<nat> {
    set c: nat | c < |t.channels| && t.channels[c] == Open
  }

  lemma CloseOne(t: Table, id: NodeID)
    requires EntriesOpen(t) && id in t.peers
    ensures Close(t, id).peers.Keys == t.peers.Keys - {id}
    ensures t.peers[id].close in OpenChannels(t)
    ensures OpenChannels(Close(t, id)) == OpenChannels(t) - {t.peers[id].close}
  {
  }

  lemma NoneOpen(t: Table)
    requires OpenHeld(t) && t.peers.Keys == {}
    ensures OpenChannels(t) == {}
  {
    assert forall c | c in OpenChannels(t) :: Held(t, c);
  }

  /** There are as many members, the nodes a quorum is counted from, as open connections. */
  lemma {:induction false} MembersAreOpen(t: Table)
    requires OneOpenPerPeer(t)
    ensures |t.peers.Keys| == |OpenChannels(t)|
    decreases |t.peers|
  {
    if t.peers.Keys == {} {
      NoneOpen(t);
    } else {
      var id :| id in t.peers;
      CloseKeeps(t, id);
      CloseOne(t, id);
      MembersAreOpen(Close(t, id));
    }
  }

  class RPCNetwork {
    const ourId: NodeID
    var peers: map<NodeID, Entry>
    var channels: seq<Channel>

    constructor (ourId: NodeID)
      ensures View() == NewTable(ourId) && OneOpenPerPeer(View())
    {
      this.ourId := ourId;
      peers := map[];
      channels := [];
    }

    ghost function View(): Table
      reads this
    {
      Table(ourId, peers, channels)
    }

    method Members() returns (ids: set<NodeID>)
      requires OneOpenPerPeer(View())
      ensures ids == peers.Keys && |ids| == |OpenChannels(View())|
    {
      MembersAreOpen(View());
      ids := peers.Keys;
    }

    method RemovePeer(id: NodeID)
      requires OneOpenPerPeer(View())
      modifies this
      ensures View() == Close(old(View()), id) && OneOpenPerPeer(View())
    {
      CloseKeeps(View(), id);
      if id in peers {
        var close := peers[id].close;
        peers := peers - {id};
        channels := channels[close := Signalled];
      }
    }

    method InsertPeer(p: Peer)
      requires OneOpenPerPeer(View()) && Acceptable(ourId, p)
      modifies this
      ensures View() == Insert(old(View()), p) && OneOpenPerPeer(View())
    {
      InsertKeeps(View(), p);
      var close := |channels|;
      if p.peerId in peers {
        channels := channels[peers[p.peerId].close := Dropped];
      }
      channels := channels + [Open];
      peers := peers[p.peerId := Entry(close, p)];
    }

    /** As written: only the error branches return. */
    method AddPeer(p: Peer) returns (r: Outcome)
      requires OneOpenPerPeer(View())
      modifies this
      ensures View() == Add(old(View()), p) && r == Answer(old(View()), p) && OneOpenPerPeer(View())
      ensures r == Ok <==> |channels| == |old(channels)| + 1
      ensures r != Ok ==> View() == old(View())
    {
      if p.establishedBy != ourId && p.establishedBy != p.peerId { return NotOurs; }
      if p.peerId in peers {
        var existing := peers[p.peerId].peer;
        if p.establishedBy == existing.establishedBy {
          return Duplicate;
        } else if p.establishedBy > existing.establishedBy {
          RemovePeer(p.peerId);
        }
      }
      InsertPeer(p);
      return Ok;
    }

    /** As the comments state: the branch for a lower `established_by` returns. */
    method AddPeerByPolicy(p: Peer) returns (r: Outcome)
      requires OneOpenPerPeer(View())
      modifies this
      ensures View() == AddByPolicy(old(View()), p) && r == Answer(old(View()), p) && OneOpenPerPeer(View())
      ensures r != Ok ==> View() == old(View())
    {
      if p.establishedBy != ourId && p.establishedBy != p.peerId { return NotOurs; }
      if p.peerId in peers {
        var existing := peers[p.peerId].peer;
        if p.establishedBy == existing.establishedBy {
          return Duplicate;
        } else if p.establishedBy > existing.establishedBy {
          RemovePeer(p.peerId);
        } else {
          return Ok;
        }
      }
      InsertPeer(p);
      return Ok;
    }

    /** A message that cannot be written removes its peer. */
    method SendMsg(to: NodeID, written: bool)
      requires OneOpenPerPeer(View())
      modifies this
      ensures View() == (if to in old(peers) && written then old(View()) else Close(old(View()), to))
      ensures OneOpenPerPeer(View())
    {
      if to in peers && written { return; }
      RemovePeer(to);
    }
  }
}
