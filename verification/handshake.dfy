/** How a connection between two nodes enters both tables: the dialler writes its id, the acceptor reads it. */
module Handshake {
  import opened Types
  import opened PeerTable
  import Wire

  datatype Answered = Refused(reason: Outcome) | NoId | Joined

  class LeadershipSystem {
    const rpc: RPCNetwork

    constructor (rpc: RPCNetwork)
      ensures this.rpc == rpc
    {
      this.rpc := rpc;
    }

    /** The accepting end: 8 bytes of id, then the peer is established by that id. */
    method HandleConnection(stream: seq<Wire.Byte>, conn: nat) returns (r: Answered)
      requires OneOpenPerPeer(rpc.View())
      modifies rpc
      ensures OneOpenPerPeer(rpc.View())
      ensures match Wire.ReadHello(stream)
              case None => r == NoId && rpc.View() == old(rpc.View())
              case Some(id) =>
                rpc.View() == Add(old(rpc.View()), Accepted(id, conn)) && r != NoId &&
                (r == Joined <==> |rpc.channels| == |old(rpc.channels)| + 1) &&
                (r != Joined ==> r == Refused(Answer(old(rpc.View()), Accepted(id, conn))))
    {
      match Wire.ReadHello(stream) {
        case None =>
          return NoId;
        case Some(id) =>
          var o := rpc.AddPeer(Peer(id, id, conn));
          return if o == Ok then Joined else Refused(o);
      }
    }

    /** The dialling end: write our id, then the peer is established by us. */
    method AddPeer(them: NodeID, conn: nat) returns (written: seq<Wire.Byte>, r: Answered)
      requires OneOpenPerPeer(rpc.View())
      modifies rpc
      ensures OneOpenPerPeer(rpc.View())
      ensures written == Wire.Hello(rpc.ourId)
      ensures rpc.View() == Add(old(rpc.View()), Dialled(rpc.ourId, them, conn))
      ensures r == Joined <==> |rpc.channels| == |old(rpc.channels)| + 1
      ensures r != Joined ==> r == Refused(Answer(old(rpc.View()), Dialled(rpc.ourId, them, conn)))
    {
      written := Wire.BigEndian(rpc.ourId, 8);
      var o := rpc.AddPeer(Peer(rpc.ourId, them, conn));
      r := if o == Ok then Joined else Refused(o);
    }
  }

  /** Whatever follows the handshake, both ends register the same establisher for the same connection. */
  lemma EndsNameTheDialler(us: NodeID, them: NodeID, conn: nat, rest: seq<Wire.Byte>)
    ensures Wire.ReadHello(Wire.Hello(us) + rest) == Some(us)
    ensures Accepted(us, conn).establishedBy == Dialled(us, them, conn).establishedBy == us
    ensures Accepted(us, conn).peerId == us && Dialled(us, them, conn).peerId == them
    ensures Acceptable(us, Dialled(us, them, conn)) && Acceptable(them, Accepted(us, conn))
  {
    Wire.HelloRead(us, rest);
  }

  /** Dialling a node that does not know us yet puts the connection into both tables, established by us. */
  method Connect(a: LeadershipSystem, b: LeadershipSystem, conn: nat) returns (r: Answered, q: Answered)
    requires a.rpc != b.rpc && OneOpenPerPeer(a.rpc.View()) && OneOpenPerPeer(b.rpc.View())
    requires b.rpc.ourId !in a.rpc.peers && a.rpc.ourId !in b.rpc.peers
    modifies a.rpc, b.rpc
    ensures r == Joined && q == Joined && OneOpenPerPeer(a.rpc.View()) && OneOpenPerPeer(b.rpc.View())
    ensures b.rpc.ourId in a.rpc.peers && a.rpc.peers[b.rpc.ourId].peer == Dialled(a.rpc.ourId, b.rpc.ourId, conn)
    ensures a.rpc.ourId in b.rpc.peers && b.rpc.peers[a.rpc.ourId].peer == Accepted(a.rpc.ourId, conn)
  {
    EndsNameTheDialler(a.rpc.ourId, b.rpc.ourId, conn, []);
    var hello;
    hello, r := a.AddPeer(b.rpc.ourId, conn);
    assert hello + [] == hello;
    q := b.HandleConnection(hello, conn);
  }
}
