/** From packets to bytes and back: what a byte stream written by one end does to the other, and where the size checks of the two ends
    disagree. */
module EndToEnd {
  import opened Wire
  import opened ChannelTree
  import opened TreeInvariant
  import opened Routing
  import opened Framing
  import opened Multiplexer

  function Deliver(c: Conn, m: Msg): Conn {
    if Open(c, m.path) then Handle(c, m) else c
  }

  function DeliverAll(c: Conn, ms: seq<Msg>): Conn
    decreases |ms|
  {
    if ms == [] then c else DeliverAll(Deliver(c, ms[0]), ms[1..])
  }

  /** A MAKE only names a number its channel has not seen; everything has an address and fits the limit. */
  predicate Deliverable(c: Conn, m: Msg, max: nat) {
    && Addressable(m.path) && Packable(m.body) && WireSize(m) <= max
    && (m.body.MakeChannel? && Open(c, m.path) ==>
          Sub(m.path, m.body.number) !in c.nodes && 2 <= m.body.number < U32_LIMIT)
  }

  predicate AllDeliverable(c: Conn, ms: seq<Msg>, max: nat)
    decreases |ms|
  {
    ms == [] || (Deliverable(c, ms[0], max) && AllDeliverable(Deliver(c, ms[0]), ms[1..], max))
  }

  predicate AllEncodable(ms: seq<Msg>) {
    forall i :: 0 <= i < |ms| ==> Addressable(ms[i].path) && Packable(ms[i].body)
  }

  function EncodeAll(ms: seq<Msg>): (fs: seq<Frame>)
    requires AllEncodable(ms)
    ensures |fs| == |ms|
  {
    if ms == [] then [] else [Encode(ms[0])] + EncodeAll(ms[1..])
  }

  lemma {:induction false} WrapNumber(p: Path, number: nat, packet: Bytes)
    requires Addressable(p) && number < U32_LIMIT
    ensures Wrap(p, number, packet).number < U32_LIMIT
  {
    if p.Sub? { WrapNumber(p.parent, p.number, PackU32(number) + packet); }
  }

  lemma EncodeFits(m: Msg, max: nat)
    requires Addressable(m.path) && Packable(m.body) && max < U32_LIMIT
    ensures Fits(Encode(m), max) <==> WireSize(m) <= max
    ensures Encode(m).number < U32_LIMIT
  {
    EncodeSize(m);
    WrapNumber(m.path, Terminal(m.body), BodyBytes(m.body));
  }

  lemma {:induction false} DeliverableEncodes(c: Conn, ms: seq<Msg>, max: nat)
    requires AllDeliverable(c, ms, max) && max < U32_LIMIT
    ensures AllEncodable(ms) && AllFit(EncodeAll(ms), max)
    decreases |ms|
  {
    if ms != [] {
      DeliverableEncodes(Deliver(c, ms[0]), ms[1..], max);
      assert forall i :: 0 < i < |ms| ==> ms[i] == ms[1..][i - 1];
      EncodeFits(ms[0], max);
    }
  }

  lemma BringsIt(c: Conn, m: Msg)
    requires WellFormed(c) && Open(c, Root) && Addressable(m.path) && Packable(m.body)
    ensures var f := Encode(m); Brings(c, Root, f.number, f.payload) == if Open(c, m.path) then Some(m) else None
  {
    if !m.body.Data? { CommandRoundTrip(m.body); }
    BringsDown(c, m.path, Terminal(m.body), BodyBytes(m.body));
  }

  lemma {:induction false} BringsDown(c: Conn, p: Path, number: nat, packet: Bytes)
    requires WellFormed(c) && Open(c, Root) && Addressable(p) && number < U32_LIMIT
    ensures var f := Wrap(p, number, packet);
      Brings(c, Root, f.number, f.payload) == if Open(c, p) then Brings(c, p, number, packet) else None
  {
    if p.Sub? {
      OneHeader(number, packet);
      assert p == Sub(p.parent, p.number);
      BringsDown(c, p.parent, p.number, PackU32(number) + packet);
    }
  }

  lemma DeliverKeeps(c: Conn, m: Msg, max: nat)
    requires WellFormed(c) && Open(c, Root) && Deliverable(c, m, max)
    ensures WellFormed(Deliver(c, m)) && Open(Deliver(c, m), Root)
  {
    if Open(c, m.path) { HandleKeeps(c, m); }
  }

  /** The frames of a list of packets, handled one after the other, do what the packets mean, and then the stream's end closes the
      connection. */
  lemma {:induction false} ArrivalsMean(c: Conn, ms: seq<Msg>, max: nat, end: ChannelError)
    requires WellFormed(c) && Open(c, Root) && AllDeliverable(c, ms, max) && AllEncodable(ms)
    ensures AllAcceptable(c, EncodeAll(ms)) && Arrivals(c, EncodeAll(ms), end) == CloseRoot(DeliverAll(c, ms), end)
    decreases |ms|
  {
    if ms != [] {
      var fs := EncodeAll(ms);
      assert fs[1..] == EncodeAll(ms[1..]);
      NestedRouting(c, ms[0]);
      BringsIt(c, ms[0]);
      DeliverKeeps(c, ms[0], max);
      ArrivalsMean(Deliver(c, ms[0]), ms[1..], max, end);
    }
  }

  /** The byte stream of any list of packets within the limit, however it is cut into pieces on the way, does to the receiving end exactly
      what the packets mean, in order. */
  lemma StreamMeansPackets(c: Conn, ms: seq<Msg>)
    requires WellFormed(c) && Open(c, Root) && AllDeliverable(c, ms, c.maxPayload) && c.maxPayload < U32_LIMIT
    ensures AllEncodable(ms) && AllFit(EncodeAll(ms), c.maxPayload)
    ensures var r := Parse(StreamBytes(EncodeAll(ms)), c.maxPayload);
      AllAcceptable(c, r.0) && Arrivals(c, r.0, r.1) == CloseRoot(DeliverAll(c, ms), ReceivingError)
  {
    DeliverableEncodes(c, ms, c.maxPayload);
    var fs := EncodeAll(ms);
    FramingRoundTrip(fs, [], c.maxPayload);
    assert StreamBytes(fs) + [] == StreamBytes(fs) && fs + [] == fs;
    ArrivalsMean(c, ms, c.maxPayload, ReceivingError);
  }

  // ---- Sizes ----

  lemma OversizeFrame(f: Frame, rest: Bytes, max: nat)
    requires Packed(f)
    ensures Parse(FrameBytes(f) + rest, max) == ([], PacketTooLarge) <==> |f.payload| > max
  {
    HeaderOf(f, rest);
  }

  /** A packet that send_packet admits is turned away by a receiver with the same limit, which closes the whole connection, exactly when it
      is longer than max_payload_size; send_packet admits up to 8 bytes more than that on the socket channel and up to 4 on any other. */
  lemma AdmittedIsAccepted(c: Conn, p: Path, d: Bytes, rest: Bytes)
    requires Addressable(p) && WireSize(Msg(p, Data(d))) < U32_LIMIT && c.maxPayload < U32_LIMIT
    ensures MaxPacketSize(c, p) == MaxPayloadSize(c, p) + if p.Root? then 8 else 4
    ensures Packed(Encode(Msg(p, Data(d))))
    ensures Parse(FrameBytes(Encode(Msg(p, Data(d)))) + rest, c.maxPayload) == ([], PacketTooLarge) <==> |d| > MaxPayloadSize(c, p)
  {
    var m := Msg(p, Data(d));
    EncodeSize(m);
    EncodeFits(m, c.maxPayload);
    OversizeFrame(Encode(m), rest, c.maxPayload);
  }

  const DEFAULT_PACKET_SIZE: nat := 1024 * 64 - 8

  /** With the default limit: 65529 bytes on the socket channel pass send_packet and close the connection on the other side. */
  lemma AdmittedAndRejected(c: Conn)
    requires c.maxPayload == DEFAULT_PACKET_SIZE
    ensures var d: Bytes := seq(DEFAULT_PACKET_SIZE + 1, i => 0);
      && |d| <= MaxPacketSize(c, Root) && Packed(Encode(Msg(Root, Data(d))))
      && Parse(FrameBytes(Encode(Msg(Root, Data(d)))), c.maxPayload) == ([], PacketTooLarge)
  {
    var d: Bytes := seq(DEFAULT_PACKET_SIZE + 1, i => 0);
    AdmittedIsAccepted(c, Root, d, []);
    var bs := FrameBytes(Encode(Msg(Root, Data(d))));
    assert bs + [] == bs;
  }

  const DEFAULT_HINT: nat := 1400

  /** The limits of a socket channel, as its two setters leave them. */
  class SizeLimits {
    var maxPayload: nat
    var hint: nat

    /** The hint never exceeds the limit, and neither can be made useless. */
    predicate Valid()
      reads this
    {
      56 <= hint <= maxPayload
    }

    constructor ()
      ensures Valid() && maxPayload == DEFAULT_PACKET_SIZE && hint == DEFAULT_HINT
    {
      maxPayload, hint := DEFAULT_PACKET_SIZE, DEFAULT_HINT;
    }

    /** max_packet_size = size: too small a size is ignored, none at all means the default. */
    method SetMaxPacketSize(size: int)
      requires Valid()
      modifies this
      ensures Valid()
      ensures maxPayload == if size <= 0 then DEFAULT_PACKET_SIZE - 8 else if size < 64 then old(maxPayload) else size - 8
      ensures hint == if old(hint) < maxPayload then old(hint) else maxPayload
    {
      var size1 := size;
      if size1 <= 0 {
        size1 := DEFAULT_PACKET_SIZE;
      } else if size1 < 64 {
        return;
      }
      maxPayload := size1 - 8;
      hint := if hint < maxPayload then hint else maxPayload;
    }

    /** payload_size_hint = size */
    method SetHint(size: int)
      requires Valid()
      modifies this
      ensures Valid() && maxPayload == old(maxPayload)
      ensures 0 < size < 64 ==> hint == old(hint)
      ensures !(0 < size < 64) ==> var wanted := if size <= 0 then DEFAULT_HINT else size; hint == if wanted < maxPayload then wanted else maxPayload
    {
      var size1 := size;
      if size1 <= 0 {
        size1 := DEFAULT_HINT;
      } else if size1 < 64 {
        return;
      }
      hint := if size1 < maxPayload then size1 else maxPayload;
    }
  }

  /** The two number ranges of a channel stay apart exactly while both ends together have made at most 2^32 - 2 channels. */
  lemma RangesStayApart(x: Node, y: Node, made: nat, madeThere: nat)
    requires x.positive && !y.positive && x.next == FIRST_POSITIVE + made && y.next == FIRST_NEGATIVE - madeThere
    requires made <= U32_LIMIT - 2 && madeThere <= U32_LIMIT - 2
    ensures (forall n :: !(Own(x, n) && Own(y, n))) <==> made + madeThere <= U32_LIMIT - 2
    ensures forall n: nat :: Own(x, n) || Own(y, n) ==> 2 <= n < U32_LIMIT
  {
    if made + madeThere > U32_LIMIT - 2 {
      assert Own(x, x.next - 1) && Own(y, x.next - 1);
    }
  }
}
