/** Bytes on a connection: an 8-byte id, then messages framed by a 4-byte big-endian length. */
module Wire {
  import opened Types

  type Byte = b: nat | b < 256

  /** `serialize` and `deserialize` are not part of this model; only that they invert each other is used. */
  datatype Codec<!M(!new)> = Codec(enc: M -> Option<seq<Byte>>, dec: seq<Byte> -> Option<M>) {
    ghost predicate Faithful() {
      forall m: M :: enc(m).Some? ==> dec(enc(m).value) == Some(m)
    }
  }

  function Limit(width: nat): nat {
    if width == 0 then 1 else 256 * Limit(width - 1)
  }

  function BigEndian(n: nat, width: nat): (s: seq<Byte>)
    ensures |s| == width
  {
    if width == 0 then [] else BigEndian(n / 256, width - 1) + [n % 256]
  }

  function FromBigEndian(s: seq<Byte>): nat {
    if s == [] then 0 else FromBigEndian(s[..|s| - 1]) * 256 + s[|s| - 1]
  }

  /** Writing in `width` bytes and reading back keeps the number exactly when it fits. */
  lemma {:induction false} BigEndianExact(n: nat, width: nat)
    ensures FromBigEndian(BigEndian(n, width)) < Limit(width)
    ensures FromBigEndian(BigEndian(n, width)) == n <==> n < Limit(width)
  {
    if width > 0 {
      BigEndianExact(n / 256, width - 1);
      assert BigEndian(n, width)[..width - 1] == BigEndian(n / 256, width - 1);
    }
  }

  /** The first byte is the most significant. */
  lemma {:induction false} FirstByteLeads(a: Byte, s: seq<Byte>)
    ensures FromBigEndian([a] + s) == a * Limit(|s|) + FromBigEndian(s)
    decreases |s|
  {
    if s == [] {
      assert ([a] + s)[..0] == [];
    } else {
      var k := |s| - 1;
      assert ([a] + s)[..|s|] == [a] + s[..k];
      FirstByteLeads(a, s[..k]);
      assert FromBigEndian([a] + s) == FromBigEndian([a] + s[..k]) * 256 + s[k];
      LimitStep(a, k, FromBigEndian(s[..k]));
    }
  }

  lemma LimitStep(a: nat, k: nat, x: nat)
    ensures (a * Limit(k) + x) * 256 == a * Limit(k + 1) + x * 256
  {
    assert a * Limit(k + 1) == a * (256 * Limit(k)) == (a * Limit(k)) * 256;
  }

  /** The number with these digits to the base 256. */
  function Word(a: nat, b: nat, c: nat, d: nat): nat {
    0x100_0000 * a + 0x1_0000 * b + 0x100 * c + d
  }

  /** What four bytes mean, as `u32::from_be_bytes` reads them. */
  lemma FourBytes(s: seq<Byte>)
    requires |s| == 4
    ensures FromBigEndian(s) == Word(s[0], s[1], s[2], s[3])
  {
    Limits();
    assert Limit(1) == 0x100 && Limit(2) == 0x1_0000 && Limit(3) == 0x100_0000;
    assert s == [s[0]] + s[1..] && s[1..] == [s[1]] + s[2..] && s[2..] == [s[2]] + s[3..] && s[3..] == [s[3]] + [];
    FirstByteLeads(s[0], s[1..]);
    FirstByteLeads(s[1], s[2..]);
    FirstByteLeads(s[2], s[3..]);
    FirstByteLeads(s[3], []);
  }

  /** What eight bytes mean: the first four are the high half. */
  lemma EightBytes(s: seq<Byte>)
    requires |s| == 8
    ensures FromBigEndian(s) == 0x1_0000_0000 * FromBigEndian(s[..4]) + FromBigEndian(s[4..])
  {
    Limits();
    HighHalf(s[..4], s[4..]);
    assert s[..4] + s[4..] == s;
  }

  lemma {:induction false} HighHalf(a: seq<Byte>, b: seq<Byte>)
    ensures FromBigEndian(a + b) == FromBigEndian(a) * Limit(|b|) + FromBigEndian(b)
    decreases |b|
  {
    if b == [] {
      assert a + b == a;
    } else {
      var k := |b| - 1;
      assert (a + b)[..|a + b| - 1] == a + b[..k];
      HighHalf(a, b[..k]);
      LimitStep(FromBigEndian(a), k, FromBigEndian(b[..k]));
    }
  }

  const U32 := 0x1_0000_0000

  lemma Limits()
    ensures Limit(4) == U32 && Limit(8) == U32 * U32
  {
    assert Limit(1) == 256 && Limit(2) == 0x1_0000 && Limit(3) == 0x100_0000;
    assert Limit(5) == 256 * Limit(4) && Limit(6) == 256 * Limit(5) && Limit(7) == 256 * Limit(6);
  }

  /** The length is cast to `u32`, so a longer payload gets a truncated header. */
  function Frame(buf: seq<Byte>): seq<Byte> {
    BigEndian(|buf| % U32, 4) + buf
  }

  /** The frame on the wire: four bytes, the most significant first, that say the length as far as 32 bits go,
      then the payload. */
  lemma FrameLayout(buf: seq<Byte>)
    ensures var f := Frame(buf);
      |f| == 4 + |buf| && f[4..] == buf &&
      Word(f[0], f[1], f[2], f[3]) == |buf| % 0x1_0000_0000
  {
    var f := Frame(buf);
    Limits();
    BigEndianExact(|buf| % U32, 4);
    assert f[..4] == BigEndian(|buf| % U32, 4);
    FourBytes(f[..4]);
  }

  datatype Got<M> = Got(msg: M, rest: seq<Byte>) | EndOfStream | BadMessage

  function ReadFrame<M(!new)>(codec: Codec<M>, bytes: seq<Byte>): Got<M> {
    if |bytes| < 4 then EndOfStream
    else
      var len := FromBigEndian(bytes[..4]);
      if |bytes| - 4 < len then EndOfStream
      else
        match codec.dec(bytes[4..4 + len])
        case Some(m) => Got(m, bytes[4 + len..])
        case None => BadMessage
  }

  /** What a peer task delivers until its first read error. */
  function ReadFrames<M(!new)>(codec: Codec<M>, bytes: seq<Byte>): seq<M>
    decreases |bytes|
  {
    match ReadFrame(codec, bytes)
    case Got(m, rest) => [m] + ReadFrames(codec, rest)
    case EndOfStream => []
    case BadMessage => []
  }

  /** A number in front of anything else is read back from its own bytes. */
  lemma NumberInFront(n: nat, width: nat, tail: seq<Byte>)
    requires n < Limit(width)
    ensures (BigEndian(n, width) + tail)[..width] == BigEndian(n, width)
    ensures FromBigEndian((BigEndian(n, width) + tail)[..width]) == n
  {
    BigEndianExact(n, width);
    assert (BigEndian(n, width) + tail)[..width] == BigEndian(n, width);
  }

  lemma HeaderLength(buf: seq<Byte>, rest: seq<Byte>)
    ensures FromBigEndian((Frame(buf) + rest)[..4]) == |buf| % U32
  {
    Limits();
    NumberInFront(|buf| % U32, 4, buf + rest);
    assert Frame(buf) + rest == BigEndian(|buf| % U32, 4) + (buf + rest);
  }

  /** One message comes back, with exactly the following bytes left, if and only if its length fits the header. */
  lemma FrameRoundTripExactly<M(!new)>(codec: Codec<M>, m: M, rest: seq<Byte>)
    requires codec.Faithful() && codec.enc(m).Some?
    ensures ReadFrame(codec, Frame(codec.enc(m).value) + rest) == Got(m, rest) <==> |codec.enc(m).value| < 0x1_0000_0000
  {
    var buf := codec.enc(m).value;
    var bytes := Frame(buf) + rest;
    HeaderLength(buf, rest);
    if |buf| < U32 {
      assert bytes[4..4 + |buf|] == buf && bytes[4 + |buf|..] == rest;
    } else {
      assert |bytes[4 + |buf| % U32..]| > |rest|;
    }
  }

  /** A whole frame of a payload that fits the header is in front. */
  ghost predicate InFront(buf: seq<Byte>, rest: seq<Byte>, bytes: seq<Byte>) {
    |buf| < 0x1_0000_0000 && bytes == Frame(buf) + rest
  }

  lemma FrameInFront<M(!new)>(codec: Codec<M>, buf: seq<Byte>, rest: seq<Byte>)
    requires |buf| < 0x1_0000_0000
    ensures ReadFrame(codec, Frame(buf) + rest) ==
            match codec.dec(buf) case Some(m) => Got(m, rest) case None => BadMessage
  {
    HeaderLength(buf, rest);
    var bytes := Frame(buf) + rest;
    assert bytes[4..4 + |buf|] == buf && bytes[4 + |buf|..] == rest;
  }

  lemma {:induction false} BackToBytes(s: seq<Byte>)
    ensures BigEndian(FromBigEndian(s), |s|) == s
    decreases |s|
  {
    if s != [] { BackToBytes(s[..|s| - 1]); }
  }

  /** Bytes from which a frame's length can be taken start with that frame. */
  lemma Unframed(bytes: seq<Byte>) returns (buf: seq<Byte>, rest: seq<Byte>)
    requires |bytes| >= 4 && |bytes| - 4 >= FromBigEndian(bytes[..4])
    ensures InFront(buf, rest, bytes)
  {
    var len := FromBigEndian(bytes[..4]);
    BelowLimit(bytes[..4]);
    Limits();
    BackToBytes(bytes[..4]);
    buf, rest := bytes[4..4 + len], bytes[4 + len..];
    assert bytes == bytes[..4] + buf + rest;
  }

  /** What a read reports, for every stream: the end exactly if no whole frame is in front; otherwise the
      message of the frame's payload with the bytes behind it, or a bad message if it has none. */
  lemma ReadsExactly<M(!new)>(codec: Codec<M>, bytes: seq<Byte>)
    ensures ReadFrame(codec, bytes) == EndOfStream <==> !exists buf, rest :: InFront(buf, rest, bytes)
    ensures forall buf, rest | InFront(buf, rest, bytes) ::
      ReadFrame(codec, bytes) == match codec.dec(buf) case Some(m) => Got(m, rest) case None => BadMessage
  {
    forall buf, rest | InFront(buf, rest, bytes)
      ensures ReadFrame(codec, bytes) == match codec.dec(buf) case Some(m) => Got(m, rest) case None => BadMessage
    {
      FrameInFront(codec, buf, rest);
    }
    if |bytes| >= 4 && |bytes| - 4 >= FromBigEndian(bytes[..4]) {
      var buf, rest := Unframed(bytes);
    }
  }

  /** Messages that can be sent: each encodes to under 2^32 bytes. */
  ghost predicate Sendable<M(!new)>(codec: Codec<M>, msgs: seq<M>) {
    forall k | 0 <= k < |msgs| :: codec.enc(msgs[k]).Some? && |codec.enc(msgs[k]).value| < 0x1_0000_0000
  }

  /** What the sends of these messages write, one after the other. */
  function Frames<M(!new)>(codec: Codec<M>, msgs: seq<M>): seq<Byte>
    requires forall k | 0 <= k < |msgs| :: codec.enc(msgs[k]).Some?
  {
    if msgs == [] then [] else Frame(codec.enc(msgs[0]).value) + Frames(codec, msgs[1..])
  }

  lemma FramesCons<M(!new)>(codec: Codec<M>, msgs: seq<M>, i: nat)
    requires (forall k | 0 <= k < |msgs| :: codec.enc(msgs[k]).Some?) && i < |msgs|
    ensures Frames(codec, msgs[..i + 1]) == Frame(codec.enc(msgs[0]).value) + Frames(codec, msgs[1..][..i])
  {
    assert msgs[..i + 1][0] == msgs[0] && msgs[..i + 1][1..] == msgs[1..][..i];
  }

  /** The stream of these messages, cut after `k` bytes, reads as the first `j`: those it wholly holds. */
  ghost predicate CutAt<M(!new)>(codec: Codec<M>, msgs: seq<M>, k: nat, j: nat)
    requires Sendable(codec, msgs) && k <= |Frames(codec, msgs)|
  {
    j <= |msgs| && ReadFrames(codec, Frames(codec, msgs)[..k]) == msgs[..j] &&
    |Frames(codec, msgs[..j])| <= k && (j < |msgs| ==> k < |Frames(codec, msgs[..j + 1])|)
  }

  /** A stream cut within its first frame yields nothing. */
  lemma CutInside<M(!new)>(codec: Codec<M>, msgs: seq<M>, k: nat)
    requires Sendable(codec, msgs) && msgs != [] && k < |Frame(codec.enc(msgs[0]).value)|
    ensures CutAt(codec, msgs, k, 0)
  {
    CutHeader(codec, codec.enc(msgs[0]).value, Frames(codec, msgs)[..k], Frames(codec, msgs[1..]), k);
    FramesCons(codec, msgs, 0);
  }

  /** A stream cut after its first frame yields that message and what the cut rest yields. */
  lemma ReadAfter<M(!new)>(codec: Codec<M>, msgs: seq<M>, k: nat)
    requires codec.Faithful() && Sendable(codec, msgs) && msgs != []
    requires |Frame(codec.enc(msgs[0]).value)| <= k <= |Frames(codec, msgs)|
    ensures ReadFrames(codec, Frames(codec, msgs)[..k]) ==
      [msgs[0]] + ReadFrames(codec, Frames(codec, msgs[1..])[..k - |Frame(codec.enc(msgs[0]).value)|])
  {
    var first, more := Frame(codec.enc(msgs[0]).value), Frames(codec, msgs[1..]);
    assert Frames(codec, msgs)[..k] == first + more[..k - |first|];
    FrameRoundTripExactly(codec, msgs[0], more[..k - |first|]);
  }

  lemma CutAfter<M(!new)>(codec: Codec<M>, msgs: seq<M>, k: nat, i: nat)
    requires codec.Faithful() && Sendable(codec, msgs) && msgs != []
    requires |Frame(codec.enc(msgs[0]).value)| <= k <= |Frames(codec, msgs)|
    requires CutAt(codec, msgs[1..], k - |Frame(codec.enc(msgs[0]).value)|, i)
    ensures CutAt(codec, msgs, k, i + 1)
  {
    ReadAfter(codec, msgs, k);
    assert msgs[..i + 1] == [msgs[0]] + msgs[1..][..i];
    FramesCons(codec, msgs, i);
    if i + 1 < |msgs| { FramesCons(codec, msgs, i + 1); }
  }

  /** Of a stream cut after `k` bytes, exactly the messages whose frames are complete come out. */
  lemma {:induction false} CutFramesRead<M(!new)>(codec: Codec<M>, msgs: seq<M>, k: nat) returns (j: nat)
    requires codec.Faithful() && Sendable(codec, msgs) && k <= |Frames(codec, msgs)|
    ensures CutAt(codec, msgs, k, j)
    decreases |msgs|
  {
    j := 0;
    if msgs != [] {
      var first := |Frame(codec.enc(msgs[0]).value)|;
      if k < first {
        CutInside(codec, msgs, k);
      } else {
        var i := CutFramesRead(codec, msgs[1..], k - first);
        CutAfter(codec, msgs, k, i);
        j := i + 1;
      }
    }
  }

  /** A frame cut short reads as the end of the stream, never as a message. */
  lemma CutHeader<M(!new)>(codec: Codec<M>, buf: seq<Byte>, bytes: seq<Byte>, more: seq<Byte>, k: nat)
    requires |buf| < U32 && k < |Frame(buf)| && bytes == (Frame(buf) + more)[..k]
    ensures ReadFrame(codec, bytes) == EndOfStream
  {
    if k >= 4 {
      HeaderLength(buf, more);
      assert bytes[..4] == (Frame(buf) + more)[..4];
    }
  }

  /** The handshake: the dialler's id in front of its messages. */
  function Hello(id: NodeID): seq<Byte> {
    BigEndian(id, 8)
  }

  /** The id on the wire: eight bytes, the most significant first. */
  lemma HelloLayout(id: NodeID)
    ensures var h := Hello(id);
      |h| == 8 &&
      id == 0x1_0000_0000 * Word(h[0], h[1], h[2], h[3]) + Word(h[4], h[5], h[6], h[7])
  {
    var h := Hello(id);
    Limits();
    BigEndianExact(id, 8);
    EightBytes(h);
    FourBytes(h[..4]);
    FourBytes(h[4..]);
  }

  function ReadHello(bytes: seq<Byte>): Option<NodeID> {
    if |bytes| < 8 then None
    else
      BelowU64(bytes[..8]);
      Some(FromBigEndian(bytes[..8]))
  }

  lemma {:induction false} BelowLimit(s: seq<Byte>)
    ensures FromBigEndian(s) < Limit(|s|)
  {
    if s != [] { BelowLimit(s[..|s| - 1]); }
  }

  lemma BelowU64(s: seq<Byte>)
    requires |s| == 8
    ensures FromBigEndian(s) < 0x1_0000_0000_0000_0000
  {
    BelowLimit(s);
    Limits();
  }

  lemma HelloRead(id: NodeID, rest: seq<Byte>)
    ensures ReadHello(Hello(id) + rest) == Some(id)
  {
    Limits();
    NumberInFront(id, 8, rest);
  }

  /** The bytes at which the peer task's reading stops. */
  function Unread<M(!new)>(codec: Codec<M>, bytes: seq<Byte>): seq<Byte>
    decreases |bytes|
  {
    match ReadFrame(codec, bytes)
    case Got(_, rest) => Unread(codec, rest)
    case EndOfStream => bytes
    case BadMessage => bytes
  }

  lemma {:induction false} FramesRead<M(!new)>(codec: Codec<M>, msgs: seq<M>)
    requires codec.Faithful() && Sendable(codec, msgs)
    ensures ReadFrames(codec, Frames(codec, msgs)) == msgs && Unread(codec, Frames(codec, msgs)) == []
    decreases |msgs|
  {
    if msgs != [] {
      FrameRoundTripExactly(codec, msgs[0], Frames(codec, msgs[1..]));
      FramesRead(codec, msgs[1..]);
    }
  }

  /** Framed stream round trip: the id and every message come back, nothing else, and every byte is used. */
  lemma StreamRoundTrip<M(!new)>(codec: Codec<M>, id: NodeID, msgs: seq<M>)
    requires codec.Faithful() && Sendable(codec, msgs)
    ensures var bytes := Hello(id) + Frames(codec, msgs);
      ReadHello(bytes) == Some(id) && ReadFrames(codec, bytes[8..]) == msgs && Unread(codec, bytes[8..]) == []
  {
    FramesRead(codec, msgs);
    HelloRead(id, Frames(codec, msgs));
    assert (Hello(id) + Frames(codec, msgs))[8..] == Frames(codec, msgs);
  }

  /** Prefix safety: a connection cut anywhere yields the id once 8 bytes are there, and a prefix of the
      messages, namely those wholly received. */
  lemma StreamPrefixSafe<M(!new)>(codec: Codec<M>, id: NodeID, msgs: seq<M>, k: nat) returns (j: nat)
    requires codec.Faithful() && Sendable(codec, msgs) && k <= |Hello(id) + Frames(codec, msgs)|
    ensures var bytes := (Hello(id) + Frames(codec, msgs))[..k];
      if k < 8 then j == 0 && ReadHello(bytes) == None
      else
        j <= |msgs| && ReadHello(bytes) == Some(id) && ReadFrames(codec, bytes[8..]) == msgs[..j] &&
        8 + |Frames(codec, msgs[..j])| <= k && (j < |msgs| ==> k < 8 + |Frames(codec, msgs[..j + 1])|)
  {
    j := 0;
    if k >= 8 {
      var all := Frames(codec, msgs);
      assert (Hello(id) + all)[..k] == Hello(id) + all[..k - 8];
      HelloRead(id, all[..k - 8]);
      assert (Hello(id) + all[..k - 8])[8..] == all[..k - 8];
      j := CutFramesRead(codec, msgs, k - 8);
    }
  }

  datatype SendResult = Sent | CouldNotSerialize

  /** One end of a connection: what it has written, what it has yet to read before the stream ends,
      and what its task has handed on. */
  class Connection<M(!new)> {
    const codec: Codec<M>
    var written: seq<Byte>
    var incoming: seq<Byte>
    var received: seq<M>

    constructor (codec: Codec<M>, incoming: seq<Byte>)
      ensures this.codec == codec && written == [] && this.incoming == incoming && received == []
    {
      this.codec := codec;
      written := [];
      this.incoming := incoming;
      received := [];
    }

    method SendMsg(m: M) returns (r: SendResult)
      modifies `written
      ensures r == (if codec.enc(m).Some? then Sent else CouldNotSerialize)
      ensures written == old(written) + (if codec.enc(m).Some? then Frame(codec.enc(m).value) else [])
    {
      match codec.enc(m) {
        case None =>
          return CouldNotSerialize;
        case Some(buf) =>
          written := written + BigEndian(|buf| % U32, 4);
          written := written + buf;
          return Sent;
      }
    }

    /** Fills a buffer, or fails at the end of the stream having used up what was left. */
    method ReadExact(n: nat) returns (buf: Option<seq<Byte>>)
      modifies `incoming
      ensures if n <= |old(incoming)| then buf == Some(old(incoming)[..n]) && incoming == old(incoming)[n..]
              else buf == None && incoming == []
    {
      if |incoming| < n {
        incoming := [];
        return None;
      }
      buf := Some(incoming[..n]);
      incoming := incoming[n..];
    }

    method ReadMsg() returns (r: Got<M>)
      modifies `incoming
      ensures r == ReadFrame(codec, old(incoming))
      ensures r.Got? ==> incoming == r.rest && |incoming| < |old(incoming)|
    {
      ghost var bytes := incoming;
      var header := ReadExact(4);
      if header.None? { return EndOfStream; }
      var len := FromBigEndian(header.value);
      var buf := ReadExact(len);
      if buf.None? { return EndOfStream; }
      assert buf.value == bytes[4..4 + len] && incoming == bytes[4 + len..];
      match codec.dec(buf.value) {
        case None => return BadMessage;
        case Some(m) => return Got(m, incoming);
      }
    }

    /** The loop of the peer task: hand on messages until a read fails. */
    method Pump()
      modifies `incoming, `received
      ensures received == old(received) + ReadFrames(codec, old(incoming))
    {
      var reading := true;
      while reading
        invariant reading ==> old(received) + ReadFrames(codec, old(incoming)) == received + ReadFrames(codec, incoming)
        invariant !reading ==> received == old(received) + ReadFrames(codec, old(incoming))
        decreases reading, |incoming|
      {
        var r := ReadMsg();
        match r {
          case Got(m, _) => received := received + [m];
          case EndOfStream => reading := false;
          case BadMessage => reading := false;
        }
      }
    }
  }

  lemma {:induction false} FramesSnoc<M(!new)>(codec: Codec<M>, msgs: seq<M>, k: nat)
    requires Sendable(codec, msgs) && k < |msgs|
    ensures Frames(codec, msgs[..k + 1]) == Frames(codec, msgs[..k]) + Frame(codec.enc(msgs[k]).value)
    decreases k
  {
    FramesCons(codec, msgs, k);
    if k > 0 {
      FramesSnoc(codec, msgs[1..], k - 1);
      FramesCons(codec, msgs, k - 1);
    }
  }

  /** Two ends of one connection: whatever is sent on one is handed on by the other, in order. */
  method SendAndPump<M(!new)>(codec: Codec<M>, msgs: seq<M>) returns (from: Connection<M>, to: Connection<M>)
    requires codec.Faithful() && Sendable(codec, msgs)
    ensures from.written == Frames(codec, msgs) && to.received == msgs
  {
    from := new Connection(codec, []);
    var k := 0;
    while k < |msgs|
      invariant k <= |msgs| && from.codec == codec
      invariant from.written == Frames(codec, msgs[..k])
    {
      var r := from.SendMsg(msgs[k]);
      FramesSnoc(codec, msgs, k);
      k := k + 1;
    }
    assert msgs[..|msgs|] == msgs;
    to := new Connection(codec, from.written);
    to.Pump();
    FramesRead(codec, msgs);
  }
}
