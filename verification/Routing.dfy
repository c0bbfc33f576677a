/** How packets of nested channels travel in the frames of the socket channel, and how they are found again. */
module Routing {
  import opened Wire
  import opened ChannelTree
  import opened TreeInvariant

  /** A frame of the socket channel: the channel number in its header, and its payload. */
  datatype Frame = Frame(number: nat, payload: Bytes)

  predicate Addressable(p: Path) {
    p.Sub? ==> 2 <= p.number < U32_LIMIT && Addressable(p.parent)
  }

  /** _put_packet_in_sending_queue / _send_packet from p up to the socket channel: every parent puts one 4-byte header in front. */
  function Wrap(p: Path, number: nat, packet: Bytes): Frame
    requires Addressable(p) && number < U32_LIMIT
  {
    match p
    case Root => Frame(number, packet)
    case Sub(parent, n) => Wrap(parent, n, PackU32(number) + packet)
  }

  function Encode(m: Msg): Frame
    requires Addressable(m.path) && Packable(m.body)
  {
    Wrap(m.path, Terminal(m.body), BodyBytes(m.body))
  }

  /** _handle_command at the channel p, which is open. */
  function HandleCommand(c: Conn, p: Path, packet: Bytes): (r: (Conn, bool))
    requires Open(c, p)
    ensures c.nodes.Keys <= r.0.nodes.Keys
  {
    match UnpackCommand(packet)
    case None => (c, false)
    case Some(b) => (Handle(c, Msg(p, b)), true)
  }

  /** _handle_incoming_packet: False, the answer to a packet that cannot be parsed, closes the channel that gave it, and goes on up. */
  function HandleIncoming(c: Conn, p: Path, number: nat, payload: Bytes): (r: (Conn, bool))
    ensures c.nodes.Keys <= r.0.nodes.Keys
    decreases |payload|
  {
    if !Open(c, p) then (c, true)
    else if number == COMMAND_CHANNEL_NUMBER then HandleCommand(c, p, payload)
    else if number == DATA_CHANNEL_NUMBER then (Receive(c, p, payload), true)
    else if number !in c.nodes[p].channels then (c, true)
    else if |payload| < 4 then (c, false)
    else
      var (c1, ok) := HandleIncoming(c, Sub(p, number), UnpackU32(payload[..4]), payload[4..]);
      if ok then (c1, true) else (Close(c1, Sub(p, number), InvalidPacket), false)
  }

  lemma HandleData(c: Conn, p: Path, b: Body)
    requires Open(c, p) && Packable(b)
    ensures HandleIncoming(c, p, Terminal(b), BodyBytes(b)) == (Handle(c, Msg(p, b)), true)
  {
    if !b.Data? { CommandRoundTrip(b); }
  }

  lemma OneHeader(number: nat, packet: Bytes)
    requires number < U32_LIMIT
    ensures var w := PackU32(number) + packet; |w| >= 4 && UnpackU32(w[..4]) == number && w[4..] == packet
  {
    U32RoundTrip(number);
    assert (PackU32(number) + packet)[..4] == PackU32(number);
  }

  /** The parents of p find their way down to p again, or to the first of them that is closed. */
  lemma {:induction false} RouteDown(c: Conn, p: Path, number: nat, packet: Bytes)
    requires WellFormed(c) && Open(c, Root) && Addressable(p) && number < U32_LIMIT
    requires Open(c, p) ==> HandleIncoming(c, p, number, packet).1
    ensures var f := Wrap(p, number, packet);
      HandleIncoming(c, Root, f.number, f.payload) == if Open(c, p) then HandleIncoming(c, p, number, packet) else (c, true)
  {
    match p {
      case Root =>
      case Sub(parent, n) =>
        OneHeader(number, packet);
        assert Open(c, parent) ==> (n in c.nodes[parent].channels <==> Open(c, p)) by {
          assert p == Sub(parent, n);
        }
        assert Open(c, p) ==> Open(c, parent);
        RouteDown(c, parent, n, PackU32(number) + packet);
    }
  }

  /** A packet of the channel at any path, wrapped by every parent and unwrapped on arrival, does to the receiving end exactly what the
      packet means to that channel; for a channel that is not open there it does nothing. */
  lemma NestedRouting(c: Conn, m: Msg)
    requires WellFormed(c) && Open(c, Root) && Addressable(m.path) && Packable(m.body)
    ensures var f := Encode(m);
      HandleIncoming(c, Root, f.number, f.payload) == (if Open(c, m.path) then Handle(c, m) else c, true)
  {
    if Open(c, m.path) { HandleData(c, m.path, m.body); }
    RouteDown(c, m.path, Terminal(m.body), BodyBytes(m.body));
  }

  /** The frames of two different packets differ: path, kind and content can be read off the frame. */
  function Unwrap(p: Path, number: nat, payload: Bytes): Option<(Path, nat, Bytes)>
    decreases |payload|
  {
    if number < 2 then Some((p, number, payload))
    else if |payload| < 4 then None
    else Unwrap(Sub(p, number), UnpackU32(payload[..4]), payload[4..])
  }

  lemma {:induction false} UnwrapWrap(p: Path, number: nat, packet: Bytes)
    requires Addressable(p) && number < U32_LIMIT
    ensures var f := Wrap(p, number, packet); Unwrap(Root, f.number, f.payload) == Unwrap(p, number, packet)
  {
    if p.Sub? {
      OneHeader(number, packet);
      UnwrapWrap(p.parent, p.number, PackU32(number) + packet);
    }
  }

  lemma EncodeInjective(m: Msg, m1: Msg)
    requires Addressable(m.path) && Packable(m.body) && Addressable(m1.path) && Packable(m1.body)
    requires Encode(m) == Encode(m1)
    ensures m == m1
  {
    UnwrapWrap(m.path, Terminal(m.body), BodyBytes(m.body));
    UnwrapWrap(m1.path, Terminal(m1.body), BodyBytes(m1.body));
    if !m.body.Data? {
      CommandRoundTrip(m.body);
      CommandRoundTrip(m1.body);
    }
  }

  // ---- Which packet a frame brings to which channel ----

  /** The command or data packet a frame delivers, if it gets that far. */
  function Brings(c: Conn, p: Path, number: nat, payload: Bytes): Option<Msg>
    decreases |payload|
  {
    if !Open(c, p) then None
    else if number == COMMAND_CHANNEL_NUMBER then
      var b := UnpackCommand(payload);
      if b.Some? then Some(Msg(p, b.value)) else None
    else if number == DATA_CHANNEL_NUMBER then Some(Msg(p, Data(payload)))
    else if number !in c.nodes[p].channels || |payload| < 4 then None
    else Brings(c, Sub(p, number), UnpackU32(payload[..4]), payload[4..])
  }

  /** A MAKE may only name a number that its channel has not seen. */
  predicate Acceptable(c: Conn, p: Path, number: nat, payload: Bytes) {
    var m := Brings(c, p, number, payload);
    m.Some? && m.value.body.MakeChannel? ==>
      Sub(m.value.path, m.value.body.number) !in c.nodes && 2 <= m.value.body.number < U32_LIMIT
  }

  lemma HandleKeeps(c: Conn, m: Msg)
    requires WellFormed(c) && Open(c, m.path)
    requires m.body.MakeChannel? ==> Sub(m.path, m.body.number) !in c.nodes && 2 <= m.body.number < U32_LIMIT
    ensures WellFormed(Handle(c, m)) && (Open(c, Root) ==> Open(Handle(c, m), Root))
  {
    match m.body
    case MakeChannel(n) => AnnouncedKeeps(c, m.path, n);
    case DestroyChannel(n) =>
      DestroyedKeeps(c, m.path, n);
      assert !Under(Root, Sub(m.path, n));
    case SlowDown => SetGateKeeps(c, m.path, false);
    case GoThrough => SetGateKeeps(c, m.path, true);
    case Data(d) => ReceiveKeeps(c, m.path, d);
    case _ =>
  }

  /** Handling a frame keeps the structure; after a malformed one only what closing the connection needs is left of it. */
  lemma {:induction false} IncomingKeeps(c: Conn, p: Path, number: nat, payload: Bytes)
    requires WellFormed(c) && Acceptable(c, p, number, payload)
    ensures var r := HandleIncoming(c, p, number, payload);
      (r.1 ==> WellFormed(r.0)) && Skeleton(r.0) && (Open(c, Root) ==> Open(r.0, Root))
    decreases |payload|
  {
    if Open(c, p) {
      if number == COMMAND_CHANNEL_NUMBER {
        CommandKeeps(c, p, payload);
      } else if number == DATA_CHANNEL_NUMBER {
        ReceiveKeeps(c, p, payload);
      } else if number in c.nodes[p].channels && |payload| >= 4 {
        IncomingKeeps(c, Sub(p, number), UnpackU32(payload[..4]), payload[4..]);
        var r := HandleIncoming(c, Sub(p, number), UnpackU32(payload[..4]), payload[4..]);
        if !r.1 { CloseSkeleton(r.0, Sub(p, number), InvalidPacket); }
      }
    }
  }

  lemma CommandKeeps(c: Conn, p: Path, packet: Bytes)
    requires WellFormed(c) && Open(c, p) && Acceptable(c, p, COMMAND_CHANNEL_NUMBER, packet)
    ensures var r := HandleCommand(c, p, packet); WellFormed(r.0) && (Open(c, Root) ==> Open(r.0, Root))
  {
    var b := UnpackCommand(packet);
    if b.Some? { HandleKeeps(c, Msg(p, b.value)); }
  }

  /** The size of a frame's payload is the size WireSize speaks about. */
  lemma {:induction false} WrapSize(p: Path, number: nat, packet: Bytes)
    requires Addressable(p) && number < U32_LIMIT
    ensures |Wrap(p, number, packet).payload| == 4 * Depth(p) + |packet|
  {
    if p.Sub? { WrapSize(p.parent, p.number, PackU32(number) + packet); }
  }

  lemma EncodeSize(m: Msg)
    requires Addressable(m.path) && Packable(m.body)
    ensures |Encode(m).payload| == WireSize(m)
  {
    WrapSize(m.path, Terminal(m.body), BodyBytes(m.body));
  }

  // ---- The packet tests of _clean_sending_packet ----

  /** The test that reaches the sending queue when channel `sub` of the channel p is cleaned with `check`: each level reads one header and
      passes the rest on. */
  function CleanTest(p: Path, sub: nat, check: Bytes -> bool): Frame -> bool {
    match p
    case Root => (f: Frame) => f.number == sub && check(f.payload)
    case Sub(parent, n) => CleanTest(parent, n, HeaderTest(sub, check))
  }

  function HeaderTest(sub: nat, check: Bytes -> bool): Bytes -> bool {
    (packet: Bytes) => |packet| >= 4 && UnpackU32(packet[..4]) == sub && check(packet[4..])
  }

  const ANY: Bytes -> bool := (packet: Bytes) => true

  /** The packet as the channel `top` sees it: wrapped only by the channels below top. */
  function WrapTo(top: Path, p: Path, number: nat, packet: Bytes): Frame
    requires Under(p, top) && Addressable(p) && number < U32_LIMIT
  {
    if p == top then Frame(number, packet) else WrapTo(top, p.parent, p.number, PackU32(number) + packet)
  }

  lemma {:induction false} WrapTwice(top: Path, p: Path, number: nat, packet: Bytes)
    requires Under(p, top) && Addressable(p) && number < U32_LIMIT
    ensures Addressable(top)
    ensures var f := WrapTo(top, p, number, packet); f.number < U32_LIMIT && Wrap(top, f.number, f.payload) == Wrap(p, number, packet)
  {
    if p != top { WrapTwice(top, p.parent, p.number, PackU32(number) + packet); }
  }

  lemma {:induction false} TestAtLevel(p: Path, sub: nat, check: Bytes -> bool, number: nat, packet: Bytes)
    requires Addressable(p) && number < U32_LIMIT
    ensures CleanTest(p, sub, check)(Wrap(p, number, packet)) <==> number == sub && check(packet)
  {
    if p.Sub? {
      OneHeader(number, packet);
      TestAtLevel(p.parent, p.number, HeaderTest(sub, check), p.number, PackU32(number) + packet);
    }
  }

  /** The number in front, as top sees it, names the next channel on the way down to p. */
  lemma {:induction false} NextNumber(top: Path, p: Path, number: nat, packet: Bytes)
    requires Under(p, top) && Addressable(p) && number < U32_LIMIT
    ensures var f := WrapTo(top, p, number, packet); if p == top then f.number == number else Under(p, Sub(top, f.number))
  {
    if p != top {
      NextNumber(top, p.parent, p.number, PackU32(number) + packet);
      if p.parent == top { assert p == Sub(top, p.number); }
    }
  }

  lemma {:induction false} TestElsewhere(q: Path, sub: nat, check: Bytes -> bool, p: Path, number: nat, packet: Bytes)
    requires Addressable(q) && Addressable(p) && number < 2 && !Under(p, q)
    ensures !CleanTest(q, sub, check)(Wrap(p, number, packet))
  {
    if q.Root? {
      UnderRoot(p);
    } else if Under(p, q.parent) {
      WrapTwice(q.parent, p, number, packet);
      var f := WrapTo(q.parent, p, number, packet);
      NextNumber(q.parent, p, number, packet);
      TestAtLevel(q.parent, q.number, HeaderTest(sub, check), f.number, f.payload);
      assert q == Sub(q.parent, q.number);
    } else {
      TestElsewhere(q.parent, q.number, HeaderTest(sub, check), p, number, packet);
    }
  }

  /** Cleaning channel n of p: the nested tests pick out exactly the packets of that channel and of the channels below it. */
  lemma CleanTestIsUnder(p: Path, n: nat, m: Msg)
    requires Addressable(p) && Addressable(m.path) && Packable(m.body) && 2 <= n
    ensures CleanTest(p, n, ANY)(Encode(m)) <==> Under(m.path, Sub(p, n))
  {
    var number, packet := Terminal(m.body), BodyBytes(m.body);
    if Under(m.path, p) {
      WrapTwice(p, m.path, number, packet);
      var f := WrapTo(p, m.path, number, packet);
      NextNumber(p, m.path, number, packet);
      TestAtLevel(p, n, ANY, f.number, f.payload);
      if Under(m.path, Sub(p, n)) { OnlyBranch(m.path, p, n, number, packet); }
    } else {
      TestElsewhere(p, n, ANY, m.path, number, packet);
      if Under(m.path, Sub(p, n)) { UnderParent(m.path, Sub(p, n)); }
    }
  }

  lemma {:induction false} OnlyBranch(x: Path, p: Path, n: nat, number: nat, packet: Bytes)
    requires Under(x, Sub(p, n)) && Addressable(x) && number < U32_LIMIT && Under(x, p)
    ensures WrapTo(p, x, number, packet).number == n
  {
    UnderParent(x, Sub(p, n));
    if x == Sub(p, n) {
    } else {
      UnderParent(x.parent, Sub(p, n));
      OnlyBranch(x.parent, p, n, x.number, PackU32(number) + packet);
    }
  }
}
