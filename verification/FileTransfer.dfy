/** Sending one file over a channel. The receiver has no boundary test here: it stops at the first packet that brings it to the size or beyond. */
module FileTransfer {
  import opened Wire
  import opened DirTransfer
  import opened DirSession

  const BLOCK_SIZE := 32768

  /** How many bytes the sender asks for; this cast has 64 bits only. */
  function NextBlock(size: Size, count: Size): int
    requires count <= size
  {
    var remaining := AsInt64(size - count);
    if BLOCK_SIZE < remaining then BLOCK_SIZE else remaining
  }

  /** The receive loop, as long as writing succeeds and nobody cancels. */
  function Absorb(size: Size, count: Size, content: Bytes, packets: seq<Bytes>): (r: Delivery)
    ensures r.Delivered? ==> |r.files| == 1
    decreases |packets|
  {
    if count >= size then Delivered([content], packets)
    else if packets == [] || packets[0] == [] then Refused
    else Absorb(size, Plus(count, |packets[0]|), content + packets[0], packets[1..])
  }

  /** A conforming stream gives exactly the declared part of the file, and what follows it stays in the channel. */
  lemma {:induction false} AbsorbWhole(size: Size, content: Bytes, packets: seq<Bytes>, rest: seq<Bytes>)
    requires Blocks(packets) && |content| + |Concat(packets)| == size
    ensures Absorb(size, |content|, content, packets + rest) == Delivered([content + Concat(packets)], rest)
    decreases |packets|
  {
    if packets == [] {
      assert packets + rest == rest && content + Concat(packets) == content;
    } else {
      var p, tail := packets[0], packets[1..];
      assert packets == [p] + tail;
      ConcatJoin([p], tail);
      ConcatOne(p);
      assert Block(packets[0]);
      assert Blocks(tail) by {
        assert forall i :: 0 <= i < |tail| ==> tail[i] == packets[i + 1];
      }
      assert (packets + rest)[1..] == tail + rest;
      AbsorbWhole(size, content + p, tail, rest);
      assert content + p + Concat(tail) == content + (p + Concat(tail));
    }
  }

  /** The first k packets make up n bytes. */
  predicate Reaches(packets: seq<Bytes>, k: nat, n: nat)
    requires k <= |packets|
  {
    |Concat(packets[..k])| == n && Blocks(packets[..k])
  }

  /** Some of the first packets, all of them non-empty, make up exactly n bytes. */
  ghost predicate BoundaryAt(packets: seq<Bytes>, n: nat) {
    exists k :: 0 <= k <= |packets| && Reaches(packets, k, n)
  }

  lemma ReachesTail(packets: seq<Bytes>, k: nat, n: nat)
    requires k < |packets| && Block(packets[0])
    ensures Reaches(packets, k + 1, n) <==> n >= |packets[0]| && Reaches(packets[1..], k, n - |packets[0]|)
  {
    var p, all, more := packets[0], packets[..k + 1], packets[1..][..k];
    assert all == [p] + more;
    ConcatJoin([p], more);
    ConcatOne(p);
    assert Blocks(all) <==> Blocks(more) by {
      assert forall i :: 0 <= i < |more| ==> more[i] == all[i + 1];
      assert forall i :: 1 <= i < |all| ==> all[i] == more[i - 1];
    }
  }

  lemma BoundaryTail(packets: seq<Bytes>, n: nat)
    requires packets != [] && Block(packets[0]) && n > 0
    ensures BoundaryAt(packets, n) <==> n >= |packets[0]| && BoundaryAt(packets[1..], n - |packets[0]|)
  {
    if BoundaryAt(packets, n) {
      var k :| 0 <= k <= |packets| && Reaches(packets, k, n);
      assert k > 0 by { assert Concat(packets[..0]) == []; }
      ReachesTail(packets, k - 1, n);
    }
    if n >= |packets[0]| && BoundaryAt(packets[1..], n - |packets[0]|) {
      var k :| 0 <= k <= |packets[1..]| && Reaches(packets[1..], k, n - |packets[0]|);
      ReachesTail(packets, k, n);
      assert Reaches(packets, k + 1, n);
    }
  }

  /** Against any stream the received file has the declared size exactly when a packet of the stream ends there; otherwise a successful receive
      leaves a longer file. */
  lemma {:induction false} ExactIffBoundary(size: Size, content: Bytes, packets: seq<Bytes>)
    requires |content| <= size && size + MAX_PACKET <= U64_LIMIT && Packets(packets)
    ensures var r := Absorb(size, |content|, content, packets);
      && (r.Delivered? ==> |r.files[0]| >= size)
      && (r.Delivered? && |r.files[0]| == size <==> BoundaryAt(packets, size - |content|))
    decreases |packets|
  {
    if |content| == size {
      assert Reaches(packets, 0, 0);
    } else if packets == [] || packets[0] == [] {
      NoBoundary(packets, size - |content|);
    } else {
      var p, tail := packets[0], packets[1..];
      BoundaryTail(packets, size - |content|);
      assert Packets(tail) by {
        assert forall i :: 0 <= i < |tail| ==> tail[i] == packets[i + 1];
      }
      if |content| + |p| <= size {
        ExactIffBoundary(size, content + p, tail);
      }
    }
  }

  /** A stream that a receive takes for a success although the file comes out longer than declared: one packet of two bytes for a size of one. */
  lemma LongerThanDeclared()
    ensures Absorb(1, 0, [], [[0, 0]]) == Delivered([[0, 0]], []) && !BoundaryAt([[0, 0]], 1)
  {
    var packets: seq<Bytes> := [[0, 0]];
    assert [] + packets[0] == packets[0] && packets[1..] == [];
    assert Absorb(1, 2, packets[0], packets[1..]) == Delivered([packets[0]], packets[1..]);
    assert Absorb(1, 0, [], packets) == Absorb(1, Plus(0, |packets[0]|), [] + packets[0], packets[1..]);
    ExactIffBoundary(1, [], packets);
  }

  lemma NoBoundary(packets: seq<Bytes>, n: nat)
    requires n > 0 && (packets == [] || packets[0] == [])
    ensures !BoundaryAt(packets, n)
  {
    forall k | 0 <= k <= |packets|
      ensures !Reaches(packets, k, n)
    {
      if k > 0 {
        assert !Block(packets[..k][0]);
      } else {
        assert Concat(packets[..k]) == [];
      }
    }
  }

  /** The file object: `data` from `position` on can be read; writes append. */
  class FileLike {
    const reliable: bool
    var data: Bytes
    var position: nat

    constructor (data: Bytes, reliable: bool)
      ensures this.data == data && position == 0 && this.reliable == reliable
    {
      this.data, position, this.reliable := data, 0, reliable;
    }

    method Read(most: int) returns (n: int, bs: Bytes)
      requires position <= |data|
      modifies this`position
      ensures n <= most || n <= 0
      ensures if 0 < n then position == old(position) + n <= |data| && bs == data[old(position)..position] else position == old(position)
      ensures reliable && 0 < most && old(position) < |data| ==> 0 < n
    {
      bs := [];
      var left := |data| - position;
      var most1 := if most < left then most else left;
      n := *;
      if n > most1 || (n <= 0 && reliable && most1 > 0) { n := most1; }
      if n > 0 {
        bs := data[position..position + n];
        position := position + n;
      }
    }

    method Write(bs: Bytes) returns (n: int)
      modifies this`data
      ensures -1 <= n <= |bs| && data == old(data) + bs[..if n < 0 then 0 else n]
      ensures reliable ==> n == |bs|
    {
      n := *;
      if reliable || n > |bs| { n := |bs|; }
      if n < -1 { n := -1; }
      data := data + bs[..if n < 0 then 0 else n];
    }
  }

  /** One call of the progress callback of a file: the bytes of one step (-1 for a failure), the bytes so far, the size, and the answer. */
  datatype Step = Step(bytes: int, count: Size, size: Size, goOn: bool)

  predicate AsksToEnd(t: Step) { t.bytes >= 0 && !t.goOn }

  class Report {
    const present: bool
    var calls: seq<Step>

    constructor (present: bool)
      ensures this.present == present && calls == []
    {
      this.present, calls := present, [];
    }

    method Call(step: int, count: Size, size: Size) returns (keepGoing: bool)
      requires present
      modifies this`calls
      ensures calls == old(calls) + [Step(step, count, size, keepGoing)]
    {
      keepGoing := *;
      calls := calls + [Step(step, count, size, keepGoing)];
    }
  }

  /** What was sent is the front of the file, in blocks. */
  ghost predicate Sending(data: Bytes, size: Size, count: int, sent: seq<Bytes>) {
    && 0 <= count <= size && count <= |data|
    && Blocks(sent) && Concat(sent) == data[..count]
    && (size >= S64_LIMIT ==> count == 0)
  }

  lemma SendingStep(data: Bytes, size: Size, count: Size, sent: seq<Bytes>, block: Bytes)
    requires Sending(data, size, count, sent) && count < size
    requires 1 <= |block| <= NextBlock(size, count) && count + |block| <= |data| && block == data[count..count + |block|]
    ensures Plus(count, |block|) == count + |block| && Sending(data, size, count + |block|, sent + [block])
  {
    ConcatJoin(sent, [block]);
    ConcatOne(block);
    assert data[..count] + block == data[..count + |block|];
  }

  /** The size the sender can serve: nothing to do, or a file that is long enough and whose size survives the cast. */
  predicate Servable(data: Bytes, size: Size) { size == 0 || (size <= |data| && size < S64_LIMIT) }

  ghost predicate Absorbing(size: Size, p0: seq<Bytes>, count: Size, content: Bytes, pending: seq<Bytes>) {
    Absorb(size, 0, [], p0) == Absorb(size, count, content, pending)
  }

  class RpcFile {
    var size: Size
    /** The SHA-256 of the file, if it was calculated. */
    var hash: Option<int>

    constructor (size: Size, hash: Option<int>)
      ensures this.size == size && this.hash == hash
    {
      this.size, this.hash := size, hash;
    }

    /** The loop of sendfileViaChannel with a progress callback. */
    method SendReporting(channel: Channel, f: FileLike, report: Report) returns (ok: bool)
      requires report.present && f.position == 0
      modifies channel`outgoing, f`position, report`calls
      ensures old(channel.outgoing) <= channel.outgoing
      ensures ok ==> size <= |f.data| && Blocks(Since(old(channel.outgoing), channel.outgoing))
                     && Concat(Since(old(channel.outgoing), channel.outgoing)) == f.data[..size]
      ensures ok ==> size == 0 || size < S64_LIMIT
      ensures Heeded(AsksToEnd, report.present, old(report.calls), report.calls)
      ensures ok ==> !Stopped(AsksToEnd, old(report.calls), report.calls)
      ensures f.reliable && channel.reliable && channel.open ==>
        (ok <==> Servable(f.data, size) && !Stopped(AsksToEnd, old(report.calls), report.calls))
    {
      var count: Size := 0;
      ghost var sent: seq<Bytes> := [];
      while count < size
        invariant channel.outgoing == old(channel.outgoing) + sent
        invariant f.position == count && Sending(f.data, size, count, sent)
        invariant Heeded(AsksToEnd, report.present, old(report.calls), report.calls)
        invariant !Stopped(AsksToEnd, old(report.calls), report.calls)
        decreases size - count
      {
        ghost var told := report.calls;
        var readBytes, block := f.Read(NextBlock(size, count));
        if readBytes <= 0 {
          var _ := report.Call(-1, count, size);
          return false;
        }
        var success := channel.SendPacket(block);
        if !success {
          var _ := report.Call(-1, count, size);
          return false;
        }
        SendingStep(f.data, size, count, sent, block);
        sent := sent + [block];
        count := count + readBytes;
        var keepGoing := report.Call(readBytes, count, size);
        if !keepGoing { return false; }
      }
      assert Since(old(channel.outgoing), channel.outgoing) == sent;
      ok := true;
    }

    /** The same loop without a callback. */
    method SendQuietly(channel: Channel, f: FileLike) returns (ok: bool)
      requires f.position == 0
      modifies channel`outgoing, f`position
      ensures old(channel.outgoing) <= channel.outgoing
      ensures ok ==> size <= |f.data| && Blocks(Since(old(channel.outgoing), channel.outgoing))
                     && Concat(Since(old(channel.outgoing), channel.outgoing)) == f.data[..size]
      ensures ok ==> size == 0 || size < S64_LIMIT
      ensures f.reliable && channel.reliable && channel.open ==> (ok <==> Servable(f.data, size))
    {
      var count: Size := 0;
      ghost var sent: seq<Bytes> := [];
      while count < size
        invariant channel.outgoing == old(channel.outgoing) + sent
        invariant f.position == count && Sending(f.data, size, count, sent)
        decreases size - count
      {
        var readBytes, block := f.Read(NextBlock(size, count));
        if readBytes <= 0 { return false; }
        var success := channel.SendPacket(block);
        if !success { return false; }
        SendingStep(f.data, size, count, sent, block);
        sent := sent + [block];
        count := count + readBytes;
      }
      assert Since(old(channel.outgoing), channel.outgoing) == sent;
      ok := true;
    }

    /** sendfileViaChannel */
    method SendViaChannel(channel: Channel, f: FileLike, report: Report) returns (ok: bool)
      requires f.position == 0
      modifies channel, f`position, report`calls
      ensures old(channel.outgoing) <= channel.outgoing
      ensures ok ==> size <= |f.data| && Blocks(Since(old(channel.outgoing), channel.outgoing))
                     && Concat(Since(old(channel.outgoing), channel.outgoing)) == f.data[..size]
      ensures size == 0 ==> ok
      ensures ok && size != 0 ==> channel.Pending() == if old(channel.Pending()) == [] then [] else old(channel.Pending())[1..]
      ensures !ok || size == 0 ==> channel.incoming == old(channel.incoming)
      ensures size != 0 ==> Heeded(AsksToEnd, report.present, old(report.calls), report.calls)
      ensures size != 0 && ok ==> !Stopped(AsksToEnd, old(report.calls), report.calls)
      ensures f.reliable && channel.reliable && old(channel.open) && size != 0 ==>
        (ok <==> Servable(f.data, size) && !Stopped(AsksToEnd, old(report.calls), report.calls))
    {
      if size == 0 {
        if report.present { var _ := report.Call(0, 0, 0); }
        assert Since(old(channel.outgoing), channel.outgoing) == [];
        return true;
      }
      if report.present {
        ok := SendReporting(channel, f, report);
      } else {
        ok := SendQuietly(channel, f);
      }
      if ok { var _ := channel.RecvPacket(); }
    }

    /** The loop of recvfileViaChannel with a progress callback; the digest is fed with every packet, so it sees exactly what is written. */
    method ReceiveReporting(channel: Channel, f: FileLike, report: Report) returns (ok: bool, ghost content: Bytes)
      requires report.present
      modifies channel`incoming, f`data, report`calls
      ensures ok ==> f.data == old(f.data) + content
      ensures ok ==> Absorb(size, 0, [], old(channel.Pending())) == Delivered([content], channel.Pending())
      ensures Heeded(AsksToEnd, report.present, old(report.calls), report.calls)
      ensures ok ==> !Stopped(AsksToEnd, old(report.calls), report.calls)
      ensures f.reliable ==>
        (ok <==> Absorb(size, 0, [], old(channel.Pending())).Delivered? && !Stopped(AsksToEnd, old(report.calls), report.calls))
    {
      var count: Size := 0;
      content := [];
      ghost var p0 := channel.Pending();
      while count < size
        invariant f.data == old(f.data) + content
        invariant Absorbing(size, p0, count, content, channel.Pending())
        invariant Heeded(AsksToEnd, report.present, old(report.calls), report.calls)
        invariant !Stopped(AsksToEnd, old(report.calls), report.calls)
        decreases |channel.Pending()|
      {
        ghost var told := report.calls;
        var buf := channel.RecvPacket();
        if buf == [] {
          var _ := report.Call(-1, count, size);
          return false, content;
        }
        var writtenBytes := f.Write(buf);
        if writtenBytes != |buf| {
          var _ := report.Call(-1, count, size);
          return false, content;
        }
        content := content + buf;
        assert f.data == old(f.data) + content;
        count := Plus(count, |buf|);
        var keepGoing := report.Call(|buf|, count, size);
        if !keepGoing { return false, content; }
      }
      ok := true;
    }

    /** The same loop without a callback. */
    method ReceiveQuietly(channel: Channel, f: FileLike) returns (ok: bool, ghost content: Bytes)
      modifies channel`incoming, f`data
      ensures ok ==> f.data == old(f.data) + content
      ensures ok ==> Absorb(size, 0, [], old(channel.Pending())) == Delivered([content], channel.Pending())
      ensures f.reliable ==> (ok <==> Absorb(size, 0, [], old(channel.Pending())).Delivered?)
    {
      var count: Size := 0;
      content := [];
      ghost var p0 := channel.Pending();
      while count < size
        invariant f.data == old(f.data) + content
        invariant Absorbing(size, p0, count, content, channel.Pending())
        decreases |channel.Pending()|
      {
        var buf := channel.RecvPacket();
        if buf == [] { return false, content; }
        var writtenBytes := f.Write(buf);
        if writtenBytes != |buf| { return false, content; }
        content := content + buf;
        assert f.data == old(f.data) + content;
        count := Plus(count, |buf|);
      }
      ok := true;
    }

    /** recvfileViaChannel, into an empty file. A success with a digest means that the digest of everything written is the announced one. */
    method ReceiveViaChannel(channel: Channel, f: FileLike, report: Report, sha: Bytes -> int) returns (ok: bool)
      requires f.data == []
      modifies channel`incoming, f`data, report`calls
      ensures ok ==> Absorb(size, 0, [], old(channel.Pending())) == Delivered([f.data], channel.Pending())
      ensures ok && size != 0 && hash.Some? ==> sha(f.data) == hash.value
      ensures size != 0 ==> Heeded(AsksToEnd, report.present, old(report.calls), report.calls)
      ensures f.reliable && (size == 0 || !Stopped(AsksToEnd, old(report.calls), report.calls)) ==>
        var r := Absorb(size, 0, [], old(channel.Pending()));
        && (ok <==> r.Delivered? && (size != 0 && hash.Some? ==> sha(r.files[0]) == hash.value))
        && (r.Delivered? ==> r == Delivered([f.data], channel.Pending()))
      ensures size != 0 && Stopped(AsksToEnd, old(report.calls), report.calls) ==> !ok
    {
      if size == 0 {
        if report.present { var _ := report.Call(0, 0, 0); }
        return true;
      }
      ghost var content;
      if report.present {
        ok, content := ReceiveReporting(channel, f, report);
      } else {
        ok, content := ReceiveQuietly(channel, f);
      }
      assert ok ==> f.data == content;
      if ok && hash.Some? && sha(f.data) != hash.value {
        ok := false;
      }
    }
  }
  /** Both ends of one file transfer without callbacks; the file may be read in pieces of any size. What was sent is received exactly, nothing is left
      in the channel, and the receiver rejects it exactly when the announced digest is not the one of the declared part. */
  method Transfer(data: Bytes, size: Size, hash: Option<int>, sha: Bytes -> int) returns (sent: bool, received: bool, content: Bytes, left: nat)
    ensures sent <==> Servable(data, size)
    ensures sent ==> content == data[..size] && left == 0
    ensures sent ==> (received <==> size == 0 || hash.None? || sha(data[..size]) == hash.value)
  {
    var outbound := new Channel([], true);
    var source := new FileLike(data, true);
    var silent := new Report(false);
    var sender := new RpcFile(size, hash);
    sent := sender.SendViaChannel(outbound, source, silent);

    var inbound := new Channel(outbound.outgoing, true);
    var target := new FileLike([], true);
    var receiver := new RpcFile(size, hash);
    ghost var packets := inbound.Pending();
    received := receiver.ReceiveViaChannel(inbound, target, silent, sha);
    content, left := target.data, |inbound.incoming|;
    if sent {
      AbsorbWhole(size, [], packets, []);
      assert packets + [] == packets && [] + Concat(packets) == Concat(packets);
    }
  }
}
