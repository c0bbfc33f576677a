/** The bytes as another implementation of the protocol sees them: numbers, command codes, the header of a frame, the headers of nested channels. */
module WireFormat {
  import opened Wire
  import opened ChannelTree
  import opened Routing
  import opened Framing

  /** The value of digits to the base 256, the most significant first. */
  function Digits(bs: Bytes): nat {
    if bs == [] then 0 else 256 * Digits(bs[..|bs| - 1]) + bs[|bs| - 1] as int
  }

  lemma FourDigits(a: Byte, b: Byte, c: Byte, d: Byte)
    ensures Digits([a, b, c, d]) == UnpackU32([a, b, c, d])
  {
    assert [a][..0] == [] && [a, b][..1] == [a] && [a, b, c][..2] == [a, b] && [a, b, c, d][..3] == [a, b, c];
    assert Digits([a]) == a as int;
    assert Digits([a, b]) == 256 * a as int + b as int;
    assert Digits([a, b, c]) == 256 * (256 * a as int + b as int) + c as int;
  }

  /** A number is packed into the only four bytes that are its digits, the most significant first, and these are read as the number. */
  lemma BigEndian(n: nat, bs: Bytes)
    requires n < U32_LIMIT && |bs| == 4
    ensures bs == PackU32(n) <==> Digits(bs) == n
    ensures UnpackU32(bs) == Digits(bs)
  {
    U32RoundTrip(n);
    assert bs == [bs[0], bs[1], bs[2], bs[3]];
    FourDigits(bs[0], bs[1], bs[2], bs[3]);
    if UnpackU32(bs) == n { SameDigits(bs, PackU32(n)); }
  }

  lemma SameDigits(a: Bytes, b: Bytes)
    requires |a| == |b| == 4 && UnpackU32(a) == UnpackU32(b)
    ensures a == b
  {
    assert a[0] == b[0];
    assert a[1] == b[1];
    assert a[2] == b[2];
  }

  /** The code of each command. */
  function Code(b: Body): Byte
    requires !b.Data?
  {
    match b
    case MakeChannel(_) => 1
    case ChannelMade(_) => 2
    case DestroyChannel(_) => 3
    case SlowDown => 4
    case GoThrough => 5
    case Keepalive => 6
  }

  predicate Numbered(b: Body) { b.MakeChannel? || b.ChannelMade? || b.DestroyChannel? }

  /** A packet is a command exactly when it is one byte, a code from 4 to 6, or five, a code from 1 to 3 and a number; it is then the packet of the
      command that is read from it, and of no other. */
  lemma CommandFormat(bs: Bytes)
    ensures UnpackCommand(bs).Some? <==> (|bs| == 1 && 4 <= bs[0] <= 6) || (|bs| == 5 && 1 <= bs[0] <= 3)
    ensures forall b :: UnpackCommand(bs) == Some(b) ==>
      bs[0] == Code(b) && (Numbered(b) ==> |bs| == 5 && bs[1..] == PackU32(b.number)) && (!Numbered(b) ==> |bs| == 1) && bs == PackCommand(b)
  {
    if |bs| == 5 && 1 <= bs[0] <= 3 {
      var n := UnpackU32(bs[1..]);
      BigEndian(n, bs[1..]);
      assert bs == [bs[0]] + bs[1..];
    }
  }

  /** The header of a frame is the size of its payload, then the number of its channel. */
  lemma FrameFormat(f: Frame)
    requires Packed(f)
    ensures var bs := FrameBytes(f);
      |bs| == 8 + |f.payload| && bs[..4] == PackU32(|f.payload|) && bs[4..8] == PackU32(f.number) && bs[8..] == f.payload
  {
  }

  /** The numbers of the channels from the socket channel down to p. */
  function Numbers(p: Path): seq<nat> {
    match p
    case Root => []
    case Sub(parent, n) => Numbers(parent) + [n]
  }

  function Headers(numbers: seq<nat>): Bytes
    requires forall i :: 0 <= i < |numbers| ==> numbers[i] < U32_LIMIT
  {
    if numbers == [] then [] else PackU32(numbers[0]) + Headers(numbers[1..])
  }

  lemma {:induction false} HeadersSnoc(numbers: seq<nat>, n: nat)
    requires (forall i :: 0 <= i < |numbers| ==> numbers[i] < U32_LIMIT) && n < U32_LIMIT
    ensures Headers(numbers + [n]) == Headers(numbers) + PackU32(n)
  {
    if numbers == [] {
      assert [n][1..] == [] && [] + [n] == [n];
    } else {
      assert (numbers + [n])[1..] == numbers[1..] + [n];
      HeadersSnoc(numbers[1..], n);
      assert PackU32(numbers[0]) + (Headers(numbers[1..]) + PackU32(n)) == PackU32(numbers[0]) + Headers(numbers[1..]) + PackU32(n);
    }
  }

  lemma {:induction false} NumbersFit(p: Path)
    requires Addressable(p)
    ensures forall i :: 0 <= i < |Numbers(p)| ==> 2 <= Numbers(p)[i] < U32_LIMIT
  {
    if p.Sub? { NumbersFit(p.parent); }
  }

  lemma {:induction false} WrapFormat(p: Path, number: nat, packet: Bytes)
    requires Addressable(p) && number < U32_LIMIT
    ensures var f := Wrap(p, number, packet);
      f.number < U32_LIMIT && forall i :: 0 <= i < |Numbers(p)| ==> Numbers(p)[i] < U32_LIMIT
    ensures var f := Wrap(p, number, packet);
      PackU32(f.number) + f.payload == Headers(Numbers(p)) + PackU32(number) + packet
  {
    NumbersFit(p);
    if p.Sub? {
      NumbersFit(p.parent);
      WrapFormat(p.parent, p.number, PackU32(number) + packet);
      HeadersSnoc(Numbers(p.parent), p.number);
      var above := Headers(Numbers(p.parent));
      assert above + PackU32(p.number) + (PackU32(number) + packet) == above + PackU32(p.number) + PackU32(number) + packet;
    }
  }

  /** A packet on the wire: its size, then the numbers of the channels from the outermost to its own, then 1 for data or 0 for a command, then its
      bytes. */
  lemma PacketFormat(m: Msg)
    requires Addressable(m.path) && Packable(m.body) && WireSize(m) < U32_LIMIT
    ensures Packed(Encode(m)) && forall i :: 0 <= i < |Numbers(m.path)| ==> Numbers(m.path)[i] < U32_LIMIT
    ensures FrameBytes(Encode(m)) ==
      PackU32(WireSize(m)) + Headers(Numbers(m.path)) + PackU32(if m.body.Data? then 1 else 0) + (if m.body.Data? then m.body.payload else PackCommand(m.body))
  {
    var f := Encode(m);
    EncodeSize(m);
    WrapFormat(m.path, Terminal(m.body), BodyBytes(m.body));
    var size := PackU32(|f.payload|);
    assert FrameBytes(f) == size + (PackU32(f.number) + f.payload);
    var rest := Headers(Numbers(m.path)) + PackU32(Terminal(m.body)) + BodyBytes(m.body);
    assert size + rest == size + Headers(Numbers(m.path)) + PackU32(Terminal(m.body)) + BodyBytes(m.body);
  }
}
