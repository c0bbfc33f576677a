/** Sending a directory over one channel: no delimiter is on the wire, so both loops must agree on where one file ends and the next begins. */
module DirTransfer {
  import opened Wire

  const U64_LIMIT := 0x1_0000_0000_0000_0000
  const S64_LIMIT := 0x8000_0000_0000_0000
  const U32_RANGE := 0x1_0000_0000
  const S32_LIMIT := 0x8000_0000

  type Size = x: int | 0 <= x < U64_LIMIT

  /** The most bytes one packet object can hold (its length is a 32-bit signed number). */
  const MAX_PACKET := 0x7fff_ffff

  datatype Times = Times(created: Option<int>, modified: Option<int>, accessed: Option<int>)

  datatype Entry = Entry(path: string, size: Size, isdir: bool, times: Times)

  /** What the progress callback is told. */
  datatype Info = Info(path: string, current: int, fileDone: Size, fileSize: Size, totalDone: Size, totalSize: Size)

  // ---- Casts ----

  /** static_cast<qint64> of an unsigned number */
  function AsInt64(n: Size): int { if n < S64_LIMIT then n else n - U64_LIMIT }

  /** static_cast<qint32>: the low 32 bits, read as a signed number */
  function AsInt32(n: int): int {
    if n % U32_RANGE < S32_LIMIT then n % U32_RANGE else n % U32_RANGE - U32_RANGE
  }

  /** quint64 addition */
  function Plus(a: Size, b: nat): Size { if a + b < U64_LIMIT then a + b else (a + b) % U64_LIMIT }

  /** How many bytes the sender asks the file for. */
  function ToRead(blockSize: int, size: Size, done: Size): int
    requires done <= size
  {
    var remaining := AsInt64(size - done);
    AsInt32(if blockSize < remaining then blockSize else remaining)
  }

  lemma ToReadExact(blockSize: int, size: Size, done: Size)
    requires 0 < blockSize < S32_LIMIT && done < size && size - done < S64_LIMIT
    ensures 1 <= ToRead(blockSize, size, done) <= blockSize && ToRead(blockSize, size, done) <= size - done
  {
  }

  /** Moved down by 2^63 a number keeps its low 32 bits, and these are never more than the number. */
  lemma LowBits(x: int)
    requires 0 <= x
    ensures (x - S64_LIMIT) % U32_RANGE == x % U32_RANGE <= x
  {
    var q, r := x / U32_RANGE, x % U32_RANGE;
    assert x - S64_LIMIT == U32_RANGE * (q - 0x8000_0000) + r;
  }

  /** With 2^63 bytes or more to go the cast is negative, and what is asked for never brings the rest below 2^63. */
  lemma ToReadHuge(blockSize: int, size: Size, done: Size, n: nat)
    requires 0 < blockSize < S32_LIMIT && done < size && size - done >= S64_LIMIT
    requires n <= ToRead(blockSize, size, done)
    ensures size - (done + n) >= S64_LIMIT
  {
    var x := size - done - S64_LIMIT;
    LowBits(x);
    assert AsInt64(size - done) == x - S64_LIMIT;
  }

  /** The receiver's test for a packet that reaches beyond the end of the file. */
  predicate Exceeds(written: Size, n: nat, size: Size) { Plus(written, n) > size }

  /** The test says what it means for every packet exactly for the sizes that leave room for one more packet in 64 bits. */
  lemma BoundaryTestExact(size: Size)
    requires size > 0
    ensures (forall w: Size, n: nat :: w < size && n <= MAX_PACKET ==> (Exceeds(w, n, size) <==> w + n > size))
            <==> size - 1 + MAX_PACKET < U64_LIMIT
  {
    if size - 1 + MAX_PACKET < U64_LIMIT {
    } else {
      assert Plus(size - 1, MAX_PACKET) == size - 1 + MAX_PACKET - U64_LIMIT;
      assert !Exceeds(size - 1, MAX_PACKET, size) && size - 1 + MAX_PACKET > size;
    }
  }

  predicate Roomy(e: Entry) { e.size + MAX_PACKET <= U64_LIMIT }

  // ---- Streams of packets ----

  function Concat(packets: seq<Bytes>): Bytes {
    if packets == [] then [] else Concat(packets[..|packets| - 1]) + packets[|packets| - 1]
  }

  lemma {:induction false} ConcatJoin(a: seq<Bytes>, b: seq<Bytes>)
    ensures Concat(a + b) == Concat(a) + Concat(b)
  {
    if b == [] {
      assert a + b == a;
    } else {
      assert (a + b)[..|a + b| - 1] == a + b[..|b| - 1];
      ConcatJoin(a, b[..|b| - 1]);
    }
  }

  lemma ConcatOne(p: Bytes)
    ensures Concat([p]) == p
  {
    assert [p][..0] == [];
  }

  predicate Block(p: Bytes) { p != [] && |p| <= MAX_PACKET }

  predicate Blocks(packets: seq<Bytes>) {
    forall i :: 0 <= i < |packets| ==> Block(packets[i])
  }

  /** Only files with content travel. */
  predicate Transfers(e: Entry) { !e.isdir && e.size != 0 }

  predicate Readable(e: Entry, src: map<string, Bytes>) {
    e.path in src && e.size <= |src[e.path]|
  }

  /** The packets of one file: its first e.size bytes, cut in blocks. */
  ghost predicate Cut(e: Entry, src: map<string, Bytes>, packets: seq<Bytes>) {
    && Readable(e, src)
    && Blocks(packets)
    && Concat(packets) == src[e.path][..e.size]
  }

  /** A stream that a sender may produce for these entries: the files with content one after the other, each in packets of its own. */
  ghost predicate Sends(entries: seq<Entry>, src: map<string, Bytes>, packets: seq<Bytes>) {
    if entries == [] then packets == []
    else
      var init, e := entries[..|entries| - 1], entries[|entries| - 1];
      if Transfers(e) then exists k :: 0 <= k <= |packets| && Sends(init, src, packets[..k]) && Cut(e, src, packets[k..])
      else Sends(init, src, packets)
  }

  /** What the receiver makes of a stream when its provider never fails: the content of each file in order, and the packets left over. */
  datatype Delivery = Delivered(files: seq<Bytes>, rest: seq<Bytes>) | Refused

  /** The loop over the packets of one file. */
  function Fill(size: Size, written: Size, content: Bytes, packets: seq<Bytes>): (r: Delivery)
    ensures r.Delivered? ==> |r.files| == 1
    decreases |packets|
  {
    if written >= size then Delivered([content], packets)
    else if packets == [] || packets[0] == [] || Exceeds(written, |packets[0]|, size) then Refused
    else Fill(size, Plus(written, |packets[0]|), content + packets[0], packets[1..])
  }

  function DeliverOne(e: Entry, files: seq<Bytes>, packets: seq<Bytes>): Delivery {
    if e.isdir then Delivered(files, packets)
    else
      match Fill(e.size, 0, [], packets)
      case Delivered(one, rest) => Delivered(files + one, rest)
      case Refused => Refused
  }

  function Deliver(entries: seq<Entry>, packets: seq<Bytes>): Delivery {
    if entries == [] then Delivered([], packets)
    else
      match Deliver(entries[..|entries| - 1], packets)
      case Delivered(files, rest) => DeliverOne(entries[|entries| - 1], files, rest)
      case Refused => Refused
  }

  /** One content for each entry that is a file, in order, each of the declared size. */
  predicate Sized(files: seq<Bytes>, entries: seq<Entry>) {
    if entries == [] then files == []
    else
      var init, e := entries[..|entries| - 1], entries[|entries| - 1];
      if e.isdir then Sized(files, init)
      else files != [] && |files[|files| - 1]| == e.size && Sized(files[..|files| - 1], init)
  }

  predicate AllReadable(entries: seq<Entry>, src: map<string, Bytes>) {
    forall i :: 0 <= i < |entries| && Transfers(entries[i]) ==> Readable(entries[i], src)
  }

  predicate AllRoomy(entries: seq<Entry>) {
    forall i :: 0 <= i < |entries| ==> Roomy(entries[i])
  }

  predicate Packets(packets: seq<Bytes>) {
    forall i :: 0 <= i < |packets| ==> |packets[i]| <= MAX_PACKET
  }

  function Head(e: Entry, src: map<string, Bytes>): Bytes
    requires Transfers(e) ==> Readable(e, src)
  {
    if Transfers(e) then src[e.path][..e.size] else []
  }

  /** What must end up at the receiver: the first size bytes of each file. */
  function Expected(entries: seq<Entry>, src: map<string, Bytes>): seq<Bytes>
    requires AllReadable(entries, src)
  {
    if entries == [] then []
    else
      var e := entries[|entries| - 1];
      var before := Expected(entries[..|entries| - 1], src);
      if e.isdir then before else before + [Head(e, src)]
  }

  /** The sum of the file sizes, as the 64-bit counters of both sides keep it. */
  function Total(entries: seq<Entry>): Size {
    if entries == [] then 0
    else
      var e := entries[|entries| - 1];
      if e.isdir then Total(entries[..|entries| - 1]) else Plus(Total(entries[..|entries| - 1]), e.size)
  }

  // ---- Sender to receiver ----

  lemma {:induction false} FillWhole(size: Size, content: Bytes, packets: seq<Bytes>, rest: seq<Bytes>)
    requires Blocks(packets) && |content| + |Concat(packets)| == size
    ensures Fill(size, |content|, content, packets + rest) == Delivered([content + Concat(packets)], rest)
    decreases |packets|
  {
    if packets == [] {
      assert packets + rest == rest && content + Concat(packets) == content;
    } else {
      var p, tail := packets[0], packets[1..];
      assert packets == [p] + tail;
      ConcatJoin([p], tail);
      ConcatOne(p);
      assert Block(packets[0]);
      assert Blocks(tail) by {
        assert forall i :: 0 <= i < |tail| ==> tail[i] == packets[i + 1];
      }
      assert (packets + rest)[1..] == tail + rest;
      FillWhole(size, content + p, tail, rest);
      assert content + p + Concat(tail) == content + (p + Concat(tail));
    }
  }

  lemma SendsReadable(entries: seq<Entry>, src: map<string, Bytes>, packets: seq<Bytes>)
    requires Sends(entries, src, packets)
    ensures AllReadable(entries, src)
  {
    if entries != [] {
      var init, e := entries[..|entries| - 1], entries[|entries| - 1];
      if Transfers(e) {
        var k :| 0 <= k <= |packets| && Sends(init, src, packets[..k]) && Cut(e, src, packets[k..]);
        SendsReadable(init, src, packets[..k]);
      } else {
        SendsReadable(init, src, packets);
      }
      assert forall i :: 0 <= i < |init| ==> entries[i] == init[i];
    }
  }

  lemma FileExact(e: Entry, src: map<string, Bytes>, files: seq<Bytes>, packets: seq<Bytes>, rest: seq<Bytes>)
    requires Transfers(e) && Cut(e, src, packets)
    ensures DeliverOne(e, files, packets + rest) == Delivered(files + [Head(e, src)], rest)
  {
    FillWhole(e.size, [], packets, rest);
    assert [] + Concat(packets) == src[e.path][..e.size];
  }

  /** Whatever the block sizes and the short reads were, the receiver ends with exactly the declared part of each file, takes every packet, leaves
      what follows alone, and never meets its boundary test. */
  lemma {:induction false} TransferExact(entries: seq<Entry>, src: map<string, Bytes>, packets: seq<Bytes>, rest: seq<Bytes>)
    requires Sends(entries, src, packets)
    ensures AllReadable(entries, src)
    ensures Deliver(entries, packets + rest) == Delivered(Expected(entries, src), rest)
    decreases |entries|
  {
    SendsReadable(entries, src, packets);
    if entries == [] {
      assert packets + rest == rest;
    } else {
      var init, e := entries[..|entries| - 1], entries[|entries| - 1];
      if Transfers(e) {
        var k :| 0 <= k <= |packets| && Sends(init, src, packets[..k]) && Cut(e, src, packets[k..]);
        var first, last := packets[..k], packets[k..];
        TransferExact(init, src, first, last + rest);
        assert first + (last + rest) == packets + rest;
        FileExact(e, src, Expected(init, src), last, rest);
      } else {
        TransferExact(init, src, packets, rest);
      }
    }
  }

  // ---- Arbitrary streams ----

  /** The packets that were taken from the front of `packets` to leave `rest`. */
  predicate Consumed(packets: seq<Bytes>, taken: seq<Bytes>, rest: seq<Bytes>) { packets == taken + rest }

  lemma Joined(content: Bytes, p: Bytes, more: seq<Bytes>) returns (all: seq<Bytes>)
    ensures all == [p] + more && content + Concat(all) == content + p + Concat(more)
  {
    all := [p] + more;
    ConcatJoin([p], more);
    ConcatOne(p);
    assert content + p + Concat(more) == content + (p + Concat(more));
  }

  lemma {:induction false} FillSafe(size: Size, content: Bytes, packets: seq<Bytes>) returns (taken: seq<Bytes>)
    requires |content| <= size && size + MAX_PACKET <= U64_LIMIT
    requires Packets(packets)
    requires Fill(size, |content|, content, packets).Delivered?
    ensures var r := Fill(size, |content|, content, packets);
      Consumed(packets, taken, r.rest) && |r.files[0]| == size && r.files[0] == content + Concat(taken)
    decreases |packets|
  {
    if |content| >= size {
      taken := [];
    } else {
      var p, tail := packets[0], packets[1..];
      var more := FillSafe(size, content + p, tail);
      taken := Joined(content, p, more);
      assert packets == [p] + tail;
      var rest := Fill(size, |content|, content, packets).rest;
      assert [p] + (more + rest) == taken + rest;
    }
  }

  lemma DeliverOneSafe(e: Entry, files: seq<Bytes>, packets: seq<Bytes>) returns (taken: seq<Bytes>)
    requires Roomy(e) && Packets(packets) && !e.isdir && DeliverOne(e, files, packets).Delivered?
    ensures var r := DeliverOne(e, files, packets);
      && Consumed(packets, taken, r.rest) && Concat(r.files) == Concat(files) + Concat(taken)
      && |r.files| == |files| + 1 && r.files[..|files|] == files && |r.files[|files|]| == e.size
  {
    taken := FillSafe(e.size, [], packets);
    var one := Fill(e.size, 0, [], packets).files;
    assert one == [one[0]] && one[0] == Concat(taken);
    ConcatJoin(files, one);
    ConcatOne(one[0]);
  }

  /** Against any stream: what a successful receiver has written is, byte for byte, what it took from the channel, and every file has its size. */
  lemma {:induction false} DeliverySafe(entries: seq<Entry>, packets: seq<Bytes>) returns (taken: seq<Bytes>)
    requires AllRoomy(entries) && Packets(packets)
    requires Deliver(entries, packets).Delivered?
    ensures var r := Deliver(entries, packets);
      Consumed(packets, taken, r.rest) && Concat(taken) == Concat(r.files) && Sized(r.files, entries)
    decreases |entries|
  {
    if entries == [] {
      taken := [];
      assert packets == [] + packets;
    } else {
      var init, e := entries[..|entries| - 1], entries[|entries| - 1];
      taken := DeliverySafe(init, packets);
      if !e.isdir {
        var d := Deliver(init, packets);
        assert Packets(d.rest) by {
          assert forall i :: 0 <= i < |d.rest| ==> d.rest[i] == packets[|taken| + i];
        }
        var more := DeliverOneSafe(e, d.files, d.rest);
        ConcatJoin(taken, more);
        var rest := Deliver(entries, packets).rest;
        assert taken + more + rest == taken + (more + rest);
        taken := taken + more;
      }
    }
  }
}
