/**
 * The NI transport frame: a 4-byte big-endian length followed by that many
 * payload bytes. Framing, unframing, the keep-alive probe, and the byte
 * equations of the echo handler, the NI server and the NI proxy. A byte
 * stream is the sequence of bytes a peer has sent; reading it is unframing
 * its front.
 */
module NiFrame {
  import opened Wrappers
  import opened Bytes

  /** One more than the largest length `pack("!I", ...)` accepts. */
  const FrameLimit: nat := 0x1_0000_0000

  /** The TCP ports whose traffic is NI-framed Message Server packets (pysap/SAPMS.py:1202-1203). */
  const MsPorts: set<int> := {3600, 3900}

  datatype NiError =
    | TooLong        // a payload whose length does not fit 4 bytes
    | Closed         // the stream ends before a frame starts
    | ShortHeader    // fewer than 4 length bytes
    | ShortPayload   // fewer payload bytes than the length announces

  lemma FrameLimitIsPow()
    ensures Pow256(4) == FrameLimit
  {
  }

  // ---------------------------------------------------------------------------
  // Frames

  /** `pack("!I", len(p)) + p`. */
  function Frame(p: seq<byte>): (r: Result<seq<byte>, NiError>)
    ensures r.Ok? <==> |p| < FrameLimit
    ensures r.Ok? ==> |r.value| == 4 + |p| && FromBE(r.value[..4]) == |p| && r.value[4..] == p
  {
    FrameLimitIsPow();
    if |p| >= FrameLimit then Err(TooLong)
    else
      var f := ToBE(|p|, 4) + p;
      assert f[..4] == ToBE(|p|, 4) && f[4..] == p;
      Ok(f)
  }

  /**
   * Reads one frame off the front of `bs`: its payload and the bytes after it.
   * An empty stream is a closed connection; a short one is an error.
   */
  function Unframe(bs: seq<byte>): (r: Result<(seq<byte>, seq<byte>), NiError>)
    ensures r.Ok? <==> |bs| >= 4 && |bs| - 4 >= FromBE(bs[..4])
    ensures |bs| == 0 ==> r == Err(Closed)
    ensures r.Ok? ==> |r.value.1| <= |bs| - 4
  {
    if |bs| == 0 then Err(Closed)
    else if |bs| < 4 then Err(ShortHeader)
    else
      var n := FromBE(bs[..4]);
      if |bs| - 4 < n then Err(ShortPayload) else Ok((bs[4..4 + n], bs[4 + n..]))
  }

  /** Unframing a frame followed by any bytes gives back the payload and those bytes. */
  lemma UnframeFrame(p: seq<byte>, rest: seq<byte>)
    requires |p| < FrameLimit
    ensures Unframe(Frame(p).value + rest) == Ok((p, rest))
  {
    var f := Frame(p).value;
    var bs := f + rest;
    assert bs[..4] == f[..4];
    assert bs[4..4 + |p|] == p;
    assert bs[4 + |p|..] == rest;
  }

  /** What unframing reads is exactly a frame: the stream is that frame followed by the rest. */
  lemma FrameUnframe(bs: seq<byte>)
    requires Unframe(bs).Ok?
    ensures Frame(Unframe(bs).value.0).Ok?
    ensures Frame(Unframe(bs).value.0).value + Unframe(bs).value.1 == bs
  {
    var h := bs[..4];
    var n := FromBE(h);
    var payload := bs[4..4 + n];
    FrameLimitIsPow();
    ToBEFromBE(h);
    assert Frame(payload).value == h + payload;
    Split3(bs, 4, 4 + n);
  }

  lemma Split3(bs: seq<byte>, i: nat, j: nat)
    requires i <= j <= |bs|
    ensures bs[..i] + bs[i..j] + bs[j..] == bs
  {
  }

  // ---------------------------------------------------------------------------
  // The echo handler (tests/test_sapni.py:89-98)

  /**
   * Reads 4 length bytes, then up to that many payload bytes, and replies
   * with the bytes read, re-framed. Fewer than 4 bytes, none included, make
   * `unpack` fail.
   */
  function EchoReply(request: seq<byte>): Result<seq<byte>, NiError> {
    if |request| < 4 then Err(ShortHeader)
    else
      var n := FromBE(request[..4]);
      var data := if |request| - 4 < n then request[4..] else request[4..4 + n];
      Frame(data)
  }

  /** The reply to a frame is that same frame, whatever follows it. */
  lemma EchoFrame(p: seq<byte>, rest: seq<byte>)
    requires |p| < FrameLimit
    ensures EchoReply(Frame(p).value + rest) == Frame(p)
  {
    UnframeFrame(p, rest);
  }

  /** A reply is always one whole frame, holding a prefix of what followed the length bytes. */
  lemma EchoReplyFrames(request: seq<byte>)
    requires EchoReply(request).Ok?
    ensures Unframe(EchoReply(request).value).Ok?
    ensures Unframe(EchoReply(request).value).value.1 == []
    ensures var data := Unframe(EchoReply(request).value).value.0;
            data <= request[4..] && |data| <= FromBE(request[..4])
  {
    var n := FromBE(request[..4]);
    var data := if |request| - 4 < n then request[4..] else request[4..4 + n];
    UnframeFrame(data, []);
    assert Frame(data).value + [] == Frame(data).value;
  }

  // ---------------------------------------------------------------------------
  // Keep-alive (tests/test_sapni.py:101-106, 178-231)

  /** The probe payload `NI_PING\x00`. */
  const NiPing: seq<byte> := [0x4e, 0x49, 0x5f, 0x50, 0x49, 0x4e, 0x47, 0x00]

  /** The probe as sent on the wire, `\x00\x00\x00\x08NI_PING\x00`. */
  const PingFrame: seq<byte> := [0x00, 0x00, 0x00, 0x08, 0x4e, 0x49, 0x5f, 0x50, 0x49, 0x4e, 0x47, 0x00]

  /** The wire literal is the frame of the 8-byte probe payload. */
  lemma PingFrameIsFrame()
    ensures |NiPing| == 8
    ensures Frame(NiPing) == Ok(PingFrame)
  {
    FrameLimitIsPow();
    EightBE();
    assert PingFrame == [0x00, 0x00, 0x00, 0x08] + NiPing;
  }

  lemma EightBE()
    ensures ToBE(8, 4) == [0x00, 0x00, 0x00, 0x08]
  {
    var z := ToBE(0, 0);
    assert ToBE(0, 1) == z + [0x00];
    assert ToBE(0, 2) == z + [0x00] + [0x00];
    assert ToBE(0, 3) == z + [0x00] + [0x00] + [0x00];
    ToBEUnfold(8, 4);
  }

  /** The keep-alive test server: the echo reply, then a probe. */
  function KeepAliveReply(request: seq<byte>): Result<seq<byte>, NiError> {
    var reply :- EchoReply(request);
    Ok(reply + PingFrame)
  }

  /** One `recv` result: the payload, the stream after it, and how many probes were answered on the way. */
  datatype Received = Received(payload: seq<byte>, rest: seq<byte>, acks: nat)

  /**
   * `recv` on a stream. With keep-alive on, a probe frame is answered and
   * skipped and the next frame is read instead; with it off, a probe is
   * returned like any other frame.
   */
  function Recv(stream: seq<byte>, keepAlive: bool): (r: Result<Received, NiError>)
    ensures r.Ok? && keepAlive ==> r.value.payload != NiPing
    ensures !keepAlive ==> r == (match Unframe(stream) case Err(e) => Err(e) case Ok((p, rest)) => Ok(Received(p, rest, 0)))
    ensures r.Ok? ==> |r.value.rest| < |stream|
    decreases |stream|
  {
    var (p, rest) :- Unframe(stream);
    if keepAlive && p == NiPing then
      var next :- Recv(rest, keepAlive);
      Ok(Received(next.payload, next.rest, next.acks + 1))
    else Ok(Received(p, rest, 0))
  }

  /** With keep-alive off, the echoed frame and then the probe reach the caller. */
  lemma KeepAliveOff(p: seq<byte>)
    requires |p| < FrameLimit
    ensures Recv(KeepAliveReply(Frame(p).value).value, false) == Ok(Received(p, PingFrame, 0))
    ensures Recv(PingFrame, false) == Ok(Received(NiPing, [], 0))
  {
    EchoFrame(p, []);
    assert Frame(p).value + [] == Frame(p).value;
    UnframeFrame(p, PingFrame);
    PingFrameIsFrame();
    UnframeFrame(NiPing, []);
    assert PingFrame + [] == PingFrame;
  }

  /**
   * With keep-alive on, the echoed frame reaches the caller, and the next
   * `recv` answers the probe and then fails, the server having closed.
   */
  lemma KeepAliveOn(p: seq<byte>)
    requires |p| < FrameLimit && p != NiPing
    ensures Recv(KeepAliveReply(Frame(p).value).value, true) == Ok(Received(p, PingFrame, 0))
    ensures Recv(PingFrame, true) == Err(Closed)
  {
    EchoFrame(p, []);
    assert Frame(p).value + [] == Frame(p).value;
    UnframeFrame(p, PingFrame);
    PingFrameIsFrame();
    UnframeFrame(NiPing, []);
    assert PingFrame + [] == PingFrame;
  }

  /**
   * A probe between two frames is invisible with keep-alive on: the caller
   * sees the first payload, then the second, and one probe is answered.
   */
  lemma ProbeInvisible(p1: seq<byte>, p2: seq<byte>, rest: seq<byte>)
    requires |p1| < FrameLimit && |p2| < FrameLimit && p1 != NiPing && p2 != NiPing
    ensures var s := Frame(p1).value + PingFrame + Frame(p2).value + rest;
            Recv(s, true) == Ok(Received(p1, PingFrame + Frame(p2).value + rest, 0)) &&
            Recv(PingFrame + Frame(p2).value + rest, true) == Ok(Received(p2, rest, 1))
  {
    var f1 := Frame(p1).value;
    var f2 := Frame(p2).value;
    AppendAssoc3(f1, PingFrame, f2, rest);
    RecvFrame(p1, PingFrame + f2 + rest, true);
    AppendAssoc3([], PingFrame, f2, rest);
    RecvProbe(f2 + rest);
    RecvFrame(p2, rest, true);
  }

  lemma AppendAssoc3(a: seq<byte>, b: seq<byte>, c: seq<byte>, d: seq<byte>)
    ensures a + b + c + d == a + (b + c + d) && b + c + d == b + (c + d)
  {
  }

  /** `recv` on a frame that is not a probe returns its payload. */
  lemma RecvFrame(p: seq<byte>, rest: seq<byte>, keepAlive: bool)
    requires |p| < FrameLimit && p != NiPing
    ensures Recv(Frame(p).value + rest, keepAlive) == Ok(Received(p, rest, 0))
  {
    UnframeFrame(p, rest);
  }

  /** With keep-alive on, `recv` on a probe answers it and reads on. */
  lemma RecvProbe(rest: seq<byte>)
    ensures Recv(PingFrame + rest, true) ==
      match Recv(rest, true)
      case Err(e) => Err(e)
      case Ok(next) => Ok(Received(next.payload, next.rest, next.acks + 1))
  {
    PingFrameIsFrame();
    UnframeFrame(NiPing, rest);
  }

  /**
   * A peer that closes without sending makes `recv` fail (tests/test_sapni.py:109-113, 233-243);
   * the echo handler, reading nothing, fails to unpack a length.
   */
  lemma ClosedPeer(keepAlive: bool)
    ensures Recv([], keepAlive) == Err(Closed)
    ensures EchoReply([]) == Err(ShortHeader)
  {
  }

  // ---------------------------------------------------------------------------
  // The NI server and proxy (tests/test_sapni.py:248-378)

  /**
   * The test server: it receives a frame and sends back the received NI
   * packet, length header included, which the sending socket frames again.
   */
  function ServerEcho(stream: seq<byte>): Result<seq<byte>, NiError> {
    var (p, _) :- Unframe(stream);
    var packet :- Frame(p);
    Frame(packet)
  }

  /** The bytes of `out` are an outer length, an inner length, and a payload. */
  predicate NestedFrame(out: seq<byte>, outer: nat, inner: nat, payload: seq<byte>) {
    |out| >= 8 && FromBE(out[..4]) == outer && FromBE(out[4..8]) == inner && out[8..] == payload
  }

  /** The server's answer to a frame: outer length len(p)+4, inner length len(p), then p. */
  lemma ServerEchoLayout(p: seq<byte>)
    requires |p| + 4 < FrameLimit
    ensures ServerEcho(Frame(p).value).Ok?
    ensures NestedFrame(ServerEcho(Frame(p).value).value, |p| + 4, |p|, p)
  {
    UnframeFrame(p, []);
    assert Frame(p).value + [] == Frame(p).value;
    NestedFrameOf(p);
  }

  lemma NestedFrameOf(p: seq<byte>)
    requires |p| + 4 < FrameLimit
    ensures NestedFrame(Frame(Frame(p).value).value, |p| + 4, |p|, p)
  {
    var inner := Frame(p).value;
    var out := Frame(inner).value;
    assert out[4..8] == inner[..4];
    assert out[8..] == inner[4..];
  }

  /** One proxy leg: read a frame, apply the hook to its payload, frame the result. */
  function ProxyLeg(stream: seq<byte>, hook: seq<byte> -> seq<byte>): Result<seq<byte>, NiError> {
    var (p, _) :- Unframe(stream);
    Frame(hook(p))
  }

  /** A request through the proxy to the test server and the answer back. */
  function ProxyExchange(request: seq<byte>, toServer: seq<byte> -> seq<byte>, toClient: seq<byte> -> seq<byte>): Result<seq<byte>, NiError> {
    var forwarded :- ProxyLeg(request, toServer);
    var answer :- ServerEcho(forwarded);
    ProxyLeg(answer, toClient)
  }

  /** A proxy leg on a frame frames the hook's image of its payload. */
  lemma ProxyLegOf(p: seq<byte>, hook: seq<byte> -> seq<byte>)
    requires |p| < FrameLimit
    ensures ProxyLeg(Frame(p).value, hook) == Frame(hook(p))
  {
    UnframeFrame(p, []);
    assert Frame(p).value + [] == Frame(p).value;
  }

  /**
   * The exchange through the proxy: the server frames the forwarded packet
   * once more, and the answer leg frames the hook's image of that.
   */
  lemma ProxyExchangeOf(p: seq<byte>, toServer: seq<byte> -> seq<byte>, toClient: seq<byte> -> seq<byte>)
    requires |p| < FrameLimit && |toServer(p)| + 4 < FrameLimit
    ensures ProxyExchange(Frame(p).value, toServer, toClient) == Frame(toClient(Frame(toServer(p)).value))
  {
    ProxyLegOf(p, toServer);
    var forwarded := Frame(toServer(p)).value;
    UnframeFrame(toServer(p), []);
    assert forwarded + [] == forwarded;
    ProxyLegOf(forwarded, toClient);
  }

  /** The frame of a frame of `q` with `s` appended: outer length len(q) + 4 + len(s), inner length len(q). */
  lemma AppendedFrame(q: seq<byte>, s: seq<byte>)
    requires |q| + 4 + |s| < FrameLimit
    ensures NestedFrame(Frame(Frame(q).value + s).value, |q| + 4 + |s|, |q|, q + s)
  {
    var inner := Frame(q).value;
    var out := Frame(inner + s).value;
    assert out[4..8] == inner[..4];
    assert out[8..] == inner[4..] + s;
  }

  /** Through the identity proxy the answer is the server's own. */
  lemma IdentityProxy(p: seq<byte>)
    requires |p| + 4 < FrameLimit
    ensures ProxyExchange(Frame(p).value, x => x, x => x) == ServerEcho(Frame(p).value)
    ensures ProxyExchange(Frame(p).value, x => x, x => x).Ok?
    ensures NestedFrame(ProxyExchange(Frame(p).value, x => x, x => x).value, |p| + 4, |p|, p)
  {
    ProxyExchangeOf(p, x => x, x => x);
    ServerEchoLayout(p);
    UnframeFrame(p, []);
    assert Frame(p).value + [] == Frame(p).value;
  }

  /**
   * With hooks appending `c` towards the server and `s` towards the client,
   * the answer's outer length counts p + c + s and its length bytes, while the
   * inner length is the stale len(p + c) the server saw.
   */
  lemma AppendingProxy(p: seq<byte>, c: seq<byte>, s: seq<byte>)
    requires |p| + |c| + |s| + 4 < FrameLimit
    ensures ProxyExchange(Frame(p).value, x => x + c, x => x + s).Ok?
    ensures NestedFrame(ProxyExchange(Frame(p).value, x => x + c, x => x + s).value,
                        |p + c + s| + 4, |p| + |c|, p + c + s)
  {
    ProxyExchangeOf(p, x => x + c, x => x + s);
    AppendedFrame(p + c, s);
  }

  /** "Client" and "Server": the suffixes the test's proxy hooks append. */
  const ClientSuffix: seq<byte> := [0x43, 0x6c, 0x69, 0x65, 0x6e, 0x74]
  const ServerSuffix: seq<byte> := [0x53, 0x65, 0x72, 0x76, 0x65, 0x72]

  /** The test's instance: outer length len(p + "Client" + "Server") + 4, inner length len(p) + 6. */
  lemma ClientServerProxy(p: seq<byte>)
    requires |p| + 16 < FrameLimit
    ensures ProxyExchange(Frame(p).value, x => x + ClientSuffix, x => x + ServerSuffix).Ok?
    ensures NestedFrame(ProxyExchange(Frame(p).value, x => x + ClientSuffix, x => x + ServerSuffix).value,
                        |p + ClientSuffix + ServerSuffix| + 4, |p| + 6, p + ClientSuffix + ServerSuffix)
  {
    AppendingProxy(p, ClientSuffix, ServerSuffix);
  }
}
