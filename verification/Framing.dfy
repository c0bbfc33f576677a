/** Frames on the byte stream: an 8-byte header (payload size, channel number) and the payload; reading them back in any chunks. */
module Framing {
  import opened Wire
  import opened ChannelTree
  import opened Routing

  predicate Fits(f: Frame, max: nat) {
    |f.payload| <= max && Packed(f)
  }

  /** Both header fields hold their values. */
  predicate Packed(f: Frame) {
    |f.payload| < U32_LIMIT && f.number < U32_LIMIT
  }

  predicate AllPacked(fs: seq<Frame>) {
    forall i :: 0 <= i < |fs| ==> Packed(fs[i])
  }

  predicate AllFit(fs: seq<Frame>, max: nat) {
    forall i :: 0 <= i < |fs| ==> Fits(fs[i], max)
  }

  function FrameBytes(f: Frame): Bytes
    requires Packed(f)
  {
    PackU32(|f.payload|) + PackU32(f.number) + f.payload
  }

  function StreamBytes(fs: seq<Frame>): Bytes
    requires AllPacked(fs)
  {
    if fs == [] then [] else FrameBytes(fs[0]) + StreamBytes(fs[1..])
  }

  const HEADER_SIZE := 8

  /** The frames at the front of a byte stream, up to the end of the stream or the first frame over the limit, and the error that ends
      the receive loop there. */
  function Parse(s: Bytes, max: nat): (r: (seq<Frame>, ChannelError))
    ensures r.1 == ReceivingError || r.1 == PacketTooLarge
  {
    if |s| < HEADER_SIZE then ([], ReceivingError)
    else
      var size, number := UnpackU32(s[..4]), UnpackU32(s[4..8]);
      if size > max then ([], PacketTooLarge)
      else if |s| < HEADER_SIZE + size then ([], ReceivingError)
      else
        var (fs, end) := Parse(s[HEADER_SIZE + size..], max);
        ([Frame(number, s[HEADER_SIZE..HEADER_SIZE + size])] + fs, end)
  }

  lemma HeaderOf(f: Frame, rest: Bytes)
    requires Packed(f)
    ensures var s := FrameBytes(f) + rest;
      && |s| >= HEADER_SIZE + |f.payload| && UnpackU32(s[..4]) == |f.payload| && UnpackU32(s[4..8]) == f.number
      && s[HEADER_SIZE..HEADER_SIZE + |f.payload|] == f.payload && s[HEADER_SIZE + |f.payload|..] == rest
  {
    var s := FrameBytes(f) + rest;
    assert s[..4] == PackU32(|f.payload|);
    assert s[4..8] == PackU32(f.number);
    U32RoundTrip(|f.payload|);
    U32RoundTrip(f.number);
  }

  lemma ParseOne(f: Frame, rest: Bytes, max: nat)
    requires Fits(f, max)
    ensures Parse(FrameBytes(f) + rest, max) == ([f] + Parse(rest, max).0, Parse(rest, max).1)
  {
    HeaderOf(f, rest);
  }

  lemma ParseFirst(f: Frame, tail: Bytes, fs: seq<Frame>, after: seq<Frame>, end: ChannelError, max: nat)
    requires Fits(f, max) && Parse(tail, max) == (fs + after, end)
    ensures Parse(FrameBytes(f) + tail, max) == ([f] + fs + after, end)
  {
    ParseOne(f, tail, max);
    assert [f] + (fs + after) == [f] + fs + after;
  }

  /** Frames that fit the limit come back exactly, whatever follows them. */
  lemma {:induction false} FramingRoundTrip(fs: seq<Frame>, rest: Bytes, max: nat)
    requires AllFit(fs, max)
    ensures Parse(StreamBytes(fs) + rest, max) == (fs + Parse(rest, max).0, Parse(rest, max).1)
  {
    var (after, end) := Parse(rest, max);
    if fs == [] {
      assert StreamBytes(fs) + rest == rest && fs + after == after;
    } else {
      var tail := StreamBytes(fs[1..]) + rest;
      FramingRoundTrip(fs[1..], rest, max);
      ParseFirst(fs[0], tail, fs[1..], after, end, max);
      assert StreamBytes(fs) + rest == FrameBytes(fs[0]) + tail;
      assert [fs[0]] + fs[1..] == fs;
    }
  }

  /** A stream cut off anywhere gives a prefix of the frames: every frame that was there whole, and nothing else. */
  lemma {:induction false} TruncatedStream(fs: seq<Frame>, k: nat, max: nat)
    requires AllFit(fs, max) && k <= |StreamBytes(fs)|
    ensures var r := Parse(StreamBytes(fs)[..k], max);
      && r.0 <= fs && r.1 == ReceivingError
      && |StreamBytes(r.0)| <= k
      && (|r.0| < |fs| ==> k < |StreamBytes(r.0)| + |FrameBytes(fs[|r.0|])|)
  {
    var s := StreamBytes(fs)[..k];
    if fs == [] {
    } else {
      var one, rest := FrameBytes(fs[0]), StreamBytes(fs[1..]);
      if |one| <= k {
        assert s == one + rest[..k - |one|];
        TruncatedStream(fs[1..], k - |one|, max);
        ParseOne(fs[0], rest[..k - |one|], max);
        var r := Parse(rest[..k - |one|], max).0;
        assert ([fs[0]] + r)[1..] == r;
      } else {
        assert s == one[..k];
        CutFrame(fs[0], k, max);
      }
    }
  }

  lemma CutFrame(f: Frame, k: nat, max: nat)
    requires Fits(f, max) && k < |FrameBytes(f)|
    ensures Parse(FrameBytes(f)[..k], max) == ([], ReceivingError)
  {
    if k >= HEADER_SIZE {
      HeaderOf(f, []);
      assert FrameBytes(f) + [] == FrameBytes(f);
      var s := FrameBytes(f)[..k];
      assert s[..4] == FrameBytes(f)[..4] && s[4..8] == FrameBytes(f)[4..8];
    }
  }

  /** The socket: bytes arrive in order, in pieces of any size the other side and the network choose. */
  class Connection {
    var incoming: Bytes
    var outgoing: Bytes

    constructor (incoming: Bytes)
      ensures this.incoming == incoming && outgoing == []
    {
      this.incoming, outgoing := incoming, [];
    }

    /** connection.recv(size): at least one byte and at most `size`, or nothing at the end of the stream. */
    method Recv(size: nat) returns (t: Bytes)
      requires 1 <= size
      modifies this`incoming
      ensures t + incoming == old(incoming) && |t| <= size && (t == [] <==> old(incoming) == [])
    {
      if incoming == [] { return []; }
      var k: nat :| 1 <= k <= size && k <= |incoming|;
      t := incoming[..k];
      incoming := incoming[k..];
    }

    /** recvall: exactly `size` bytes, or an IOError when the stream ends before them. */
    method RecvAll(size: nat) returns (ok: bool, buf: Bytes)
      modifies this`incoming
      ensures ok <==> size <= |old(incoming)|
      ensures ok ==> buf == old(incoming)[..size] && incoming == old(incoming)[size..]
      ensures !ok ==> incoming == []
    {
      buf := [];
      ghost var all := incoming;
      while |buf| < size
        invariant |buf| <= size && buf + incoming == all
        decreases size - |buf|
      {
        var t := Recv(size - |buf|);
        if t == [] {
          return false, buf;
        }
        assert buf + (t + incoming) == (buf + t) + incoming;
        buf := buf + t;
      }
      assert all[..size] == buf && all[size..] == incoming;
      ok := true;
    }

    /** connection.sendall */
    method SendAll(bs: Bytes)
      modifies this`outgoing
      ensures outgoing == old(outgoing) + bs
    {
      outgoing := outgoing + bs;
    }

    /** One turn of the receive loop: the next frame, or the error with which the loop ends. */
    method NextFrame(max: nat) returns (error: ChannelError, f: Frame)
      modifies this`incoming
      ensures var r := Parse(old(incoming), max);
        if error == NoError then r.0 != [] && f == r.0[0] && Parse(incoming, max) == (r.0[1..], r.1) && |incoming| < |old(incoming)|
        else r == ([], error)
    {
      ghost var s := incoming;
      f := Frame(0, []);
      var ok, header := RecvAll(HEADER_SIZE);
      if !ok { return ReceivingError, f; }
      var size, number := UnpackU32(header[..4]), UnpackU32(header[4..]);
      assert header[..4] == s[..4] && header[4..] == s[4..8];
      if size > max { return PacketTooLarge, f; }
      var payload;
      ok, payload := RecvAll(size);
      if !ok { return ReceivingError, f; }
      f := Frame(number, payload);
      assert payload == s[HEADER_SIZE..HEADER_SIZE + size] && incoming == s[HEADER_SIZE + size..];
      var tail := Parse(incoming, max);
      assert ([f] + tail.0)[1..] == tail.0;
      error := NoError;
    }
  }
}
