/** The two loops of a directory transfer as they run, over a channel, a file provider and a progress callback that behave in any way. */
module DirSession {
  import opened Wire
  import opened DirTransfer

  /** The channel of the transfer. `incoming` holds every packet the other side will ever send; after them, and once it is closed, a receive
      returns an empty packet. */
  class Channel {
    const reliable: bool
    var incoming: seq<Bytes>
    var outgoing: seq<Bytes>
    var open: bool

    constructor (incoming: seq<Bytes>, reliable: bool)
      ensures this.incoming == incoming && outgoing == [] && open && this.reliable == reliable
    {
      this.incoming, outgoing, open, this.reliable := incoming, [], true, reliable;
    }

    /** The packets that receives will return. */
    ghost function Pending(): seq<Bytes>
      reads this
    {
      if open then incoming else []
    }

    method RecvPacket() returns (packet: Bytes)
      modifies this`incoming
      ensures packet == if old(Pending()) == [] then [] else old(Pending())[0]
      ensures Pending() == if old(Pending()) == [] then [] else old(Pending())[1..]
    {
      if open && incoming != [] {
        packet := incoming[0];
        incoming := incoming[1..];
      } else {
        packet := [];
      }
    }

    /** The channel may turn out to be closed at any send, unless it is reliable. */
    method SendPacket(packet: Bytes) returns (ok: bool)
      modifies this`outgoing
      ensures outgoing == if ok then old(outgoing) + [packet] else old(outgoing)
      ensures reliable && open ==> ok
    {
      var lost: bool := *;
      ok := open && (reliable || !lost);
      if ok { outgoing := outgoing + [packet]; }
    }

    method Abort()
      modifies this`open
      ensures !open
    {
      open := false;
    }
  }

  /** The file provider. `sources` is what can be read; `names` and `contents` are the files opened for writing, in order; any operation may fail,
      and a read may return less than asked for, unless the provider is reliable (a short read may still happen then). */
  class Provider {
    const reliable: bool
    const sources: map<string, Bytes>
    var names: seq<string>
    var contents: seq<Bytes>
    var dirs: seq<string>
    var stamps: map<string, Times>

    constructor (sources: map<string, Bytes>, reliable: bool)
      ensures this.sources == sources && this.reliable == reliable && names == [] && contents == [] && dirs == []
    {
      this.sources, this.reliable := sources, reliable;
      names, contents, dirs, stamps := [], [], [], map[];
    }

    method CreateDirectory(path: string) returns (ok: bool)
      modifies this`dirs
      ensures dirs == if ok then old(dirs) + [path] else old(dirs)
      ensures reliable ==> ok
    {
      var failure: bool := *;
      ok := reliable || !failure;
      if ok { dirs := dirs + [path]; }
    }

    method OpenForWriting(path: string) returns (ok: bool)
      modifies this`names, this`contents
      ensures names == if ok then old(names) + [path] else old(names)
      ensures contents == if ok then old(contents) + [[]] else old(contents)
      ensures reliable ==> ok
    {
      var failure: bool := *;
      ok := reliable || !failure;
      if ok { names, contents := names + [path], contents + [[]]; }
    }

    /** Writes to the file opened last; returns the number of bytes written, or -1. */
    method Write(data: Bytes) returns (n: int)
      requires contents != []
      modifies this`contents
      ensures -1 <= n <= |data|
      ensures contents == old(contents)[|old(contents)| - 1 := old(contents)[|old(contents)| - 1] + data[..if n < 0 then 0 else n]]
      ensures reliable ==> n == |data|
    {
      n := *;
      if reliable || n > |data| { n := |data|; }
      if n < -1 { n := -1; }
      var last := |contents| - 1;
      contents := contents[last := contents[last] + data[..if n < 0 then 0 else n]];
    }

    method UpdateTimes(path: string, times: Times) returns (ok: bool)
      modifies this`stamps
      ensures stamps == if ok then old(stamps)[path := times] else old(stamps)
      ensures reliable ==> ok
    {
      var failure: bool := *;
      ok := reliable || !failure;
      if ok { stamps := stamps[path := times]; }
    }

    method OpenForReading(path: string) returns (ok: bool)
      ensures ok ==> path in sources
      ensures reliable && path in sources ==> ok
    {
      var failure: bool := *;
      ok := path in sources && (reliable || !failure);
    }

    /** Reads from `position` on: at most `most` bytes, any number of them down to one, nothing at the end of the file, -1 on a failure. */
    method Read(path: string, position: nat, most: int) returns (n: int, data: Bytes)
      requires path in sources && position <= |sources[path]|
      ensures n <= most || n <= 0
      ensures 0 < n ==> position + n <= |sources[path]| && data == sources[path][position..position + n]
      ensures reliable && 0 < most && position < |sources[path]| ==> 0 < n
    {
      data := [];
      var left := |sources[path]| - position;
      var most1 := if most < left then most else left;
      n := *;
      if n > most1 || (n <= 0 && reliable && most1 > 0) { n := most1; }
      if n > 0 { data := sources[path][position..position + n]; }
    }
  }

  /** One report to the callback, and what it answered. */
  datatype Told = Told(info: Info, goOn: bool)

  /** The answer to a report of progress is heeded, the answer to a report of failure is not. */
  predicate AsksToStop(t: Told) { t.info.current >= 0 && !t.goOn }

  /** The last of the reports after `before` asked to stop. */
  predicate Stopped<T>(asks: T -> bool, before: seq<T>, now: seq<T>) { |before| < |now| && asks(now[|now| - 1]) }

  /** The reports of one operation, those after `before`: none but the last one asked to stop, so the first answer that asks is heeded; without a
      callback there are none. */
  ghost predicate Heeded<T>(asks: T -> bool, present: bool, before: seq<T>, now: seq<T>) {
    before <= now && (!present ==> now == before) && forall i :: |before| <= i < |now| - 1 ==> !asks(now[i])
  }

  lemma HeededTwice<T>(asks: T -> bool, present: bool, a: seq<T>, b: seq<T>, c: seq<T>)
    requires Heeded(asks, present, a, b) && !Stopped(asks, a, b) && Heeded(asks, present, b, c)
    ensures Heeded(asks, present, a, c) && (Stopped(asks, a, c) <==> Stopped(asks, b, c))
  {
    assert forall i :: |a| <= i < |b| ==> c[i] == b[i] && !asks(b[i]);
    if b != c { assert c[|c| - 1] == c[|b|..][|c| - |b| - 1]; } else if |a| < |b| { assert c[|c| - 1] == b[|b| - 1]; }
  }

  /** The progress callback, if there is one: it sees every step and may ask to stop. */
  class Progress {
    const present: bool
    var calls: seq<Told>

    constructor (present: bool)
      ensures this.present == present && calls == []
    {
      this.present, calls := present, [];
    }

    method Report(info: Info) returns (keepGoing: bool)
      modifies this`calls
      ensures calls == if present then old(calls) + [Told(info, keepGoing)] else old(calls)
      ensures !present ==> keepGoing
    {
      keepGoing := true;
      if present {
        keepGoing := *;
        calls := calls + [Told(info, keepGoing)];
      }
    }
  }

  /** How a transfer ended. The source returns true for the first two. */
  datatype Outcome = Finished | Cancelled | Failed

  const DEFAULT_BLOCK := 32768

  function FilePaths(entries: seq<Entry>): seq<string> {
    if entries == [] then []
    else
      var e := entries[|entries| - 1];
      FilePaths(entries[..|entries| - 1]) + (if e.isdir then [] else [e.path])
  }

  function DirPaths(entries: seq<Entry>): seq<string> {
    if entries == [] then []
    else
      var e := entries[|entries| - 1];
      DirPaths(entries[..|entries| - 1]) + (if e.isdir then [e.path] else [])
  }

  function Stamped(entries: seq<Entry>, stamps: map<string, Times>): map<string, Times> {
    if entries == [] then stamps
    else
      var e := entries[|entries| - 1];
      var before := Stamped(entries[..|entries| - 1], stamps);
      if Transfers(e) then before[e.path := e.times] else before
  }

  function FileSizes(entries: seq<Entry>): seq<Size> {
    if entries == [] then []
    else
      var e := entries[|entries| - 1];
      FileSizes(entries[..|entries| - 1]) + (if e.isdir then [] else [e.size])
  }

  /** No file is longer than declared, and all but the last one begun are complete. */
  predicate NeverOver(files: seq<Bytes>, entries: seq<Entry>) {
    && |files| <= |FileSizes(entries)|
    && (forall j :: 0 <= j < |files| ==> |files[j]| <= FileSizes(entries)[j])
    && (forall j :: 0 <= j < |files| - 1 ==> |files[j]| == FileSizes(entries)[j])
  }

  lemma {:induction false} SizedByIndex(files: seq<Bytes>, entries: seq<Entry>)
    requires Sized(files, entries)
    ensures |files| == |FileSizes(entries)| && forall j :: 0 <= j < |files| ==> |files[j]| == FileSizes(entries)[j]
    decreases |entries|
  {
    if entries != [] {
      var init := entries[..|entries| - 1];
      SizedByIndex(if entries[|entries| - 1].isdir then files else files[..|files| - 1], init);
    }
  }

  lemma {:induction false} SizesPrefix(entries: seq<Entry>, i: nat)
    requires i <= |entries|
    ensures FileSizes(entries[..i]) <= FileSizes(entries)
    decreases |entries|
  {
    if i < |entries| {
      assert entries[..|entries| - 1][..i] == entries[..i];
      SizesPrefix(entries[..|entries| - 1], i);
    } else {
      assert entries[..i] == entries;
    }
  }

  /** What was added to a log. */
  function Since<T>(before: seq<T>, now: seq<T>): seq<T>
    requires before <= now
  {
    now[|before|..]
  }

  /** The file of one entry: complete after a success, and never beyond its size. */
  predicate WithinEntry(e: Entry, files: seq<Bytes>, done: bool) {
    if done then (e.isdir ==> files == []) && (!e.isdir ==> |files| == 1 && |files[0]| == e.size)
    else files == [] || (!e.isdir && |files| == 1 && |files[0]| <= e.size)
  }

  lemma {:induction false} RefusedStays(entries: seq<Entry>, i: nat, packets: seq<Bytes>)
    requires i <= |entries| && Deliver(entries[..i], packets).Refused?
    ensures Deliver(entries, packets).Refused?
    decreases |entries|
  {
    if i < |entries| {
      assert entries[..|entries| - 1][..i] == entries[..i];
      RefusedStays(entries[..|entries| - 1], i, packets);
    } else {
      assert entries[..i] == entries;
    }
  }

  function Last<T>(s: seq<T>): T
    requires s != []
  {
    s[|s| - 1]
  }

  /** The next packet exists and stays within the file. */
  predicate Fits(e: Entry, pending: seq<Bytes>, written: Size) {
    pending != [] && pending[0] != [] && !Exceeds(written, |pending[0]|, e.size)
  }

  /** The state of the inner loop: the rest of the stream still delivers what the whole did, and both counters follow the content. */
  ghost predicate Filling(e: Entry, p0: seq<Bytes>, total0: Size, content: Bytes, written: Size, pending: seq<Bytes>, total: Size) {
    && Fill(e.size, 0, [], p0) == Fill(e.size, written, content, pending)
    && total == Plus(total0, |content|)
    && (Roomy(e) && Packets(p0) ==> |content| == written <= e.size && Packets(pending))
  }

  lemma PlusTwice(total: Size, a: nat, b: nat)
    ensures Plus(Plus(total, a), b) == Plus(total, a + b)
  {
  }

  lemma NoWrap(e: Entry, written: Size, n: nat)
    requires Roomy(e) && written < e.size && n <= MAX_PACKET
    ensures Plus(written, n) == written + n
  {
  }

  lemma FillingStep(e: Entry, p0: seq<Bytes>, total0: Size, content: Bytes, written: Size, pending: seq<Bytes>, total: Size)
    requires Filling(e, p0, total0, content, written, pending, total) && written < e.size
    ensures Fits(e, pending, written) ==>
      Filling(e, p0, total0, content + pending[0], Plus(written, |pending[0]|), pending[1..], Plus(total, |pending[0]|))
    ensures !Fits(e, pending, written) ==> Fill(e.size, 0, [], p0).Refused?
  {
    if Fits(e, pending, written) {
      PlusTwice(total0, |content|, |pending[0]|);
      if Roomy(e) && Packets(p0) {
        assert |pending[0]| <= MAX_PACKET;
        NoWrap(e, written, |pending[0]|);
        assert forall i :: 0 <= i < |pending[1..]| ==> pending[1..][i] == pending[i + 1];
      }
    }
  }

  lemma DeliverNext(entries: seq<Entry>, i: nat, p0: seq<Bytes>, files: seq<Bytes>, pending: seq<Bytes>)
    requires i < |entries| && Deliver(entries[..i], p0) == Delivered(files, pending)
    ensures Deliver(entries[..i + 1], p0) == DeliverOne(entries[i], files, pending)
    ensures DeliverOne(entries[i], [], pending).Delivered? ==>
      var one := DeliverOne(entries[i], [], pending);
      DeliverOne(entries[i], files, pending) == Delivered(files + one.files, one.rest)
    ensures DeliverOne(entries[i], [], pending).Refused? ==> Deliver(entries, p0).Refused?
  {
    assert entries[..i + 1][..i] == entries[..i];
    if DeliverOne(entries[i], [], pending).Refused? { RefusedStays(entries, i + 1, p0); }
  }

  lemma NextSized(entries: seq<Entry>, i: nat, files: seq<Bytes>, one: seq<Bytes>)
    requires i < |entries| && Sized(files, entries[..i]) && WithinEntry(entries[i], one, true)
    ensures Sized(files + one, entries[..i + 1])
  {
    assert entries[..i + 1][..i] == entries[..i];
    assert (files + one)[..|files|] == files;
    if one == [] { assert files + one == files; }
  }

  lemma NextWithin(entries: seq<Entry>, i: nat, files: seq<Bytes>, one: seq<Bytes>, done: bool)
    requires i < |entries| && Sized(files, entries[..i]) && WithinEntry(entries[i], one, done)
    ensures NeverOver(files + one, entries)
  {
    assert entries[..i + 1][..i] == entries[..i];
    SizedByIndex(files, entries[..i]);
    SizesPrefix(entries, i);
    SizesPrefix(entries, i + 1);
  }

  /** The state of the outer loop of writeTo before entry i. */
  ghost predicate Written(entries: seq<Entry>, i: nat, p0: seq<Bytes>, files: seq<Bytes>, pending: seq<Bytes>, total: Size)
    requires i <= |entries|
  {
    && Deliver(entries[..i], p0) == Delivered(files, pending)
    && (AllRoomy(entries) && Packets(p0) ==> Packets(pending) && Sized(files, entries[..i]) && total == Total(entries[..i]))
  }

  lemma WrittenStep(entries: seq<Entry>, i: nat, p0: seq<Bytes>, files: seq<Bytes>, pending: seq<Bytes>, total: Size,
                    one: seq<Bytes>, pending1: seq<Bytes>, total1: Size)
    requires i < |entries| && Written(entries, i, p0, files, pending, total)
    requires DeliverOne(entries[i], [], pending) == Delivered(one, pending1)
    requires Roomy(entries[i]) && Packets(pending) ==>
      WithinEntry(entries[i], one, true) && total1 == if entries[i].isdir then total else Plus(total, entries[i].size)
    ensures Written(entries, i + 1, p0, files + one, pending1, total1)
  {
    assert entries[..i + 1][..i] == entries[..i];
    DeliverNext(entries, i, p0, files, pending);
    if AllRoomy(entries) && Packets(p0) {
      assert Roomy(entries[i]);
      NextSized(entries, i, files, one);
      PendingShrinks(entries[i], [], pending);
    }
  }

  lemma WrittenFails(entries: seq<Entry>, i: nat, p0: seq<Bytes>, files: seq<Bytes>, pending: seq<Bytes>, total: Size, one: seq<Bytes>)
    requires i < |entries| && Written(entries, i, p0, files, pending, total)
    requires Roomy(entries[i]) && Packets(pending) ==> WithinEntry(entries[i], one, false)
    ensures AllRoomy(entries) && Packets(p0) ==> NeverOver(files + one, entries)
    ensures DeliverOne(entries[i], [], pending).Refused? ==> Deliver(entries, p0).Refused?
  {
    DeliverNext(entries, i, p0, files, pending);
    if AllRoomy(entries) && Packets(p0) { NextWithin(entries, i, files, one, false); }
  }

  lemma WrittenAll(entries: seq<Entry>, p0: seq<Bytes>, files: seq<Bytes>, pending: seq<Bytes>, total: Size)
    requires Written(entries, |entries|, p0, files, pending, total)
    ensures Deliver(entries, p0) == Delivered(files, pending)
    ensures AllRoomy(entries) && Packets(p0) ==> NeverOver(files, entries) && total == Total(entries)
  {
    assert entries[..|entries|] == entries;
    if AllRoomy(entries) && Packets(p0) { SizedByIndex(files, entries); }
  }

  /** Where the files and directories of the entries before i went. */
  ghost predicate Placed(entries: seq<Entry>, i: nat, names: seq<string>, dirs: seq<string>, stamps: map<string, Times>,
                         names1: seq<string>, dirs1: seq<string>, stamps1: map<string, Times>)
    requires i <= |entries|
  {
    && names1 == names + FilePaths(entries[..i])
    && dirs1 == dirs + DirPaths(entries[..i])
    && stamps1 == Stamped(entries[..i], stamps)
  }

  lemma PlacedStep(entries: seq<Entry>, i: nat, names: seq<string>, dirs: seq<string>, stamps: map<string, Times>,
                   names1: seq<string>, dirs1: seq<string>, stamps1: map<string, Times>)
    requires i < |entries| && Placed(entries, i, names, dirs, stamps, names1, dirs1, stamps1)
    ensures var e := entries[i];
      Placed(entries, i + 1, names, dirs, stamps, names1 + (if e.isdir then [] else [e.path]),
             dirs1 + (if e.isdir then [e.path] else []), if Transfers(e) then stamps1[e.path := e.times] else stamps1)
  {
    assert entries[..i + 1][..i] == entries[..i];
  }

  lemma {:induction false} FillPackets(size: Size, written: Size, content: Bytes, packets: seq<Bytes>)
    requires Packets(packets) && Fill(size, written, content, packets).Delivered?
    ensures Packets(Fill(size, written, content, packets).rest)
    decreases |packets|
  {
    if written < size {
      assert forall i :: 0 <= i < |packets[1..]| ==> packets[1..][i] == packets[i + 1];
      FillPackets(size, Plus(written, |packets[0]|), content + packets[0], packets[1..]);
    }
  }

  lemma PendingShrinks(e: Entry, files: seq<Bytes>, packets: seq<Bytes>)
    requires Packets(packets) && DeliverOne(e, files, packets).Delivered?
    ensures Packets(DeliverOne(e, files, packets).rest)
  {
    if !e.isdir { FillPackets(e.size, 0, [], packets); }
  }

  /** The block size: the hint of the channel, cast to 32 bits, or a default. */
  function BlockSize(hint: nat): (r: int)
    ensures 0 < r < S32_LIMIT
    ensures 0 < hint < S32_LIMIT ==> r == hint
    ensures hint == 0 ==> r == DEFAULT_BLOCK
  {
    if AsInt32(hint) <= 0 then DEFAULT_BLOCK else AsInt32(hint)
  }

  /** The state of the inner loop of readFrom: what was sent is the front of the file; a rest of 2^63 bytes or more is never overcome. */
  ghost predicate Reading(e: Entry, source: Bytes, sent: seq<Bytes>, fileRead: int, total0: Size, total: Size) {
    && 0 <= fileRead <= e.size && fileRead <= |source|
    && Blocks(sent) && Concat(sent) == source[..fileRead]
    && (e.size >= S64_LIMIT ==> e.size - fileRead >= S64_LIMIT)
    && total == Plus(total0, fileRead)
  }

  lemma ReadingStep(e: Entry, source: Bytes, sent: seq<Bytes>, fileRead: Size, blockSize: int, data: Bytes, total0: Size, total: Size)
    requires Reading(e, source, sent, fileRead, total0, total) && fileRead < e.size && 0 < blockSize < S32_LIMIT
    requires 1 <= |data| <= ToRead(blockSize, e.size, fileRead)
    requires fileRead + |data| <= |source| && data == source[fileRead..fileRead + |data|]
    ensures fileRead + |data| <= e.size && Reading(e, source, sent + [data], fileRead + |data|, total0, Plus(total, |data|))
  {
    if e.size >= S64_LIMIT {
      ToReadHuge(blockSize, e.size, fileRead, |data|);
    } else {
      ToReadExact(blockSize, e.size, fileRead);
    }
    ConcatJoin(sent, [data]);
    ConcatOne(data);
    assert source[..fileRead] + data == source[..fileRead + |data|];
  }

  /** Where nothing is asked for, or nothing is left, the file cannot be sent as declared. */
  lemma ReadingStuck(e: Entry, source: Bytes, sent: seq<Bytes>, fileRead: Size, blockSize: int, total0: Size, total: Size)
    requires Reading(e, source, sent, fileRead, total0, total) && fileRead < e.size && 0 < blockSize < S32_LIMIT
    requires ToRead(blockSize, e.size, fileRead) <= 0 || fileRead == |source|
    ensures e.size > |source| || e.size >= S64_LIMIT
  {
    if e.size < S64_LIMIT { ToReadExact(blockSize, e.size, fileRead); }
  }

  /** The file is there, long enough, and of a size that the casts of the sender can handle. */
  predicate Sendable(e: Entry, src: map<string, Bytes>) {
    Transfers(e) ==> Readable(e, src) && e.size < S64_LIMIT
  }

  /** A file of 2^63 bytes or more cannot be sent, though all of it is there. */
  lemma HugeIsRefused(size: Size)
    requires size >= S64_LIMIT
    ensures
      var e := Entry("huge", size, false, Times(None, None, None));
      var src := map["huge" := seq(size, _ => 0 as Byte)];
      Readable(e, src) && !Sendable(e, src)
  {
  }

  predicate AllSendable(entries: seq<Entry>, src: map<string, Bytes>) {
    forall i :: 0 <= i < |entries| ==> Sendable(entries[i], src)
  }

  ghost predicate SentOne(e: Entry, src: map<string, Bytes>, packets: seq<Bytes>) {
    if Transfers(e) then Cut(e, src, packets) else packets == []
  }

  lemma SendsNext(entries: seq<Entry>, i: nat, src: map<string, Bytes>, sent: seq<Bytes>, more: seq<Bytes>)
    requires i < |entries| && Sends(entries[..i], src, sent) && SentOne(entries[i], src, more)
    ensures Sends(entries[..i + 1], src, sent + more)
    ensures Total(entries[..i + 1]) == if entries[i].isdir then Total(entries[..i]) else Plus(Total(entries[..i]), entries[i].size)
  {
    assert entries[..i + 1][..i] == entries[..i];
    var all := sent + more;
    if Transfers(entries[i]) {
      assert all[..|sent|] == sent && all[|sent|..] == more;
    } else {
      assert all == sent;
    }
  }

  /** The state of the outer loop of readFrom before entry i. */
  ghost predicate Sent(entries: seq<Entry>, i: nat, src: map<string, Bytes>, sent: seq<Bytes>, total: Size)
    requires i <= |entries|
  {
    && Sends(entries[..i], src, sent) && total == Total(entries[..i])
    && forall k :: 0 <= k < i ==> Sendable(entries[k], src)
  }

  /** What was there when writeTo began. */
  datatype Start = Start(packets: seq<Bytes>, contents: seq<Bytes>, names: seq<string>, dirs: seq<string>, stamps: map<string, Times>)

  class RpcDir {
    var entries: seq<Entry>
    var size: Size

    constructor (entries: seq<Entry>, size: Size)
      ensures this.entries == entries && this.size == size
    {
      this.entries, this.size := entries, size;
    }

    method FailAndAbort(channel: Channel, progress: Progress, info: Info)
      requires info.current < 0
      modifies channel`open, progress`calls
      ensures !channel.open
      ensures Heeded(AsksToStop, progress.present, old(progress.calls), progress.calls)
      ensures !Stopped(AsksToStop, old(progress.calls), progress.calls)
    {
      var _ := progress.Report(info);
      channel.Abort();
    }

    /** One turn of the inner loop of writeTo. */
    method TakePacket(e: Entry, channel: Channel, provider: Provider, progress: Progress, fileWritten: Size, total: Size)
      returns (outcome: Outcome, taken: nat)
      requires provider.contents != [] && fileWritten < e.size
      modifies channel`incoming, channel`open, provider`contents, progress`calls
      ensures |provider.contents| == |old(provider.contents)|
      ensures provider.contents[..|provider.contents| - 1] == old(provider.contents)[..|provider.contents| - 1]
      ensures outcome.Finished? ==> Fits(e, old(channel.Pending()), fileWritten)
      ensures outcome.Finished? ==>
        && channel.Pending() == old(channel.Pending())[1..] && channel.open == old(channel.open)
        && Last(provider.contents) == Last(old(provider.contents)) + old(channel.Pending())[0]
        && taken == |old(channel.Pending())[0]|
      ensures !outcome.Finished? ==> !channel.open
      ensures Heeded(AsksToStop, progress.present, old(progress.calls), progress.calls)
      ensures outcome.Cancelled? <==> Stopped(AsksToStop, old(progress.calls), progress.calls)
      ensures provider.reliable && !outcome.Cancelled? && Fits(e, old(channel.Pending()), fileWritten) ==> outcome.Finished?
      ensures |Last(provider.contents)| <=
        |Last(old(provider.contents))| + (if Fits(e, old(channel.Pending()), fileWritten) then |old(channel.Pending())[0]| else 0)
    {
      var buf := channel.RecvPacket();
      taken := |buf|;
      if buf == [] || Plus(fileWritten, |buf|) > e.size {
        FailAndAbort(channel, progress, Info(e.path, -1, fileWritten, e.size, total, size));
        return Failed, taken;
      }
      var n := provider.Write(buf);
      if n != |buf| {
        FailAndAbort(channel, progress, Info(e.path, -1, fileWritten, e.size, total, size));
        return Failed, taken;
      }
      var keepGoing :=
        progress.Report(Info(e.path, |buf|, Plus(fileWritten, |buf|), e.size, Plus(total, |buf|), size));
      if !keepGoing {
        channel.Abort();
        return Cancelled, taken;
      }
      outcome := Finished;
    }

    /** The inner loop of writeTo: one file with content, just opened. */
    method WriteFile(e: Entry, channel: Channel, provider: Provider, progress: Progress, total: Size) returns (outcome: Outcome, total1: Size)
      requires Transfers(e) && provider.contents != [] && Last(provider.contents) == []
      modifies channel`incoming, channel`open, provider`contents, progress`calls
      ensures |provider.contents| == |old(provider.contents)|
      ensures provider.contents[..|provider.contents| - 1] == old(provider.contents)[..|provider.contents| - 1]
      ensures outcome.Finished? ==>
        && Fill(e.size, 0, [], old(channel.Pending())) == Delivered([Last(provider.contents)], channel.Pending())
        && channel.open == old(channel.open)
        && total1 == Plus(total, |Last(provider.contents)|)
      ensures !outcome.Finished? ==> !channel.open
      ensures Heeded(AsksToStop, progress.present, old(progress.calls), progress.calls)
      ensures outcome.Cancelled? <==> Stopped(AsksToStop, old(progress.calls), progress.calls)
      ensures provider.reliable && !outcome.Cancelled? ==>
        (outcome.Finished? <==> Fill(e.size, 0, [], old(channel.Pending())).Delivered?)
      ensures Roomy(e) && Packets(old(channel.Pending())) ==>
        && |Last(provider.contents)| <= e.size
        && (outcome.Finished? ==> |Last(provider.contents)| == e.size)
    {
      total1 := total;
      var fileWritten: Size := 0;
      ghost var p0 := channel.Pending();
      while fileWritten < e.size
        invariant |provider.contents| == |old(provider.contents)|
        invariant provider.contents[..|provider.contents| - 1] == old(provider.contents)[..|provider.contents| - 1]
        invariant channel.open == old(channel.open)
        invariant Heeded(AsksToStop, progress.present, old(progress.calls), progress.calls)
        invariant !Stopped(AsksToStop, old(progress.calls), progress.calls)
        invariant Filling(e, p0, total, Last(provider.contents), fileWritten, channel.Pending(), total1)
        decreases |channel.Pending()|
      {
        var taken;
        FillingStep(e, p0, total, Last(provider.contents), fileWritten, channel.Pending(), total1);
        ghost var told := progress.calls;
        outcome, taken := TakePacket(e, channel, provider, progress, fileWritten, total1);
        HeededTwice(AsksToStop, progress.present, old(progress.calls), told, progress.calls);
        if !outcome.Finished? {
          return;
        }
        fileWritten := Plus(fileWritten, taken);
        total1 := Plus(total1, taken);
      }
      outcome := Finished;
    }

    /** The directory is made, or the file is opened. */
    method OpenEntry(e: Entry, channel: Channel, provider: Provider, progress: Progress, total: Size) returns (ok: bool)
      modifies channel`open, provider`names, provider`contents, provider`dirs, progress`calls
      ensures ok ==>
        && channel.open == old(channel.open) && progress.calls == old(progress.calls)
        && provider.contents == old(provider.contents) + (if e.isdir then [] else [[]])
        && provider.names == old(provider.names) + (if e.isdir then [] else [e.path])
        && provider.dirs == old(provider.dirs) + (if e.isdir then [e.path] else [])
      ensures !ok ==> !channel.open && provider.contents == old(provider.contents)
      ensures Heeded(AsksToStop, progress.present, old(progress.calls), progress.calls)
      ensures !Stopped(AsksToStop, old(progress.calls), progress.calls)
      ensures provider.reliable ==> ok
    {
      if e.isdir {
        ok := provider.CreateDirectory(e.path);
        if !ok { FailAndAbort(channel, progress, Info(e.path, -1, 0, 0, total, size)); }
      } else {
        ok := provider.OpenForWriting(e.path);
        if !ok { FailAndAbort(channel, progress, Info(e.path, -1, 0, e.size, total, size)); }
      }
    }

    /** One turn of the outer loop of writeTo. */
    method WriteEntry(e: Entry, channel: Channel, provider: Provider, progress: Progress, total: Size) returns (outcome: Outcome, total1: Size)
      modifies channel`incoming, channel`open, provider, progress`calls
      ensures old(provider.contents) <= provider.contents
      ensures outcome.Finished? ==>
        && DeliverOne(e, [], old(channel.Pending())) == Delivered(Since(old(provider.contents), provider.contents), channel.Pending())
        && channel.open == old(channel.open)
        && provider.names == old(provider.names) + (if e.isdir then [] else [e.path])
        && provider.dirs == old(provider.dirs) + (if e.isdir then [e.path] else [])
        && provider.stamps == if Transfers(e) then old(provider.stamps)[e.path := e.times] else old(provider.stamps)
      ensures !outcome.Finished? ==> !channel.open
      ensures Heeded(AsksToStop, progress.present, old(progress.calls), progress.calls)
      ensures outcome.Cancelled? <==> Stopped(AsksToStop, old(progress.calls), progress.calls)
      ensures provider.reliable && !outcome.Cancelled? ==>
        (outcome.Finished? <==> DeliverOne(e, [], old(channel.Pending())).Delivered?)
      ensures Roomy(e) && Packets(old(channel.Pending())) ==>
        && WithinEntry(e, Since(old(provider.contents), provider.contents), outcome.Finished?)
        && (outcome.Finished? ==> total1 == if e.isdir then total else Plus(total, e.size))
    {
      total1 := total;
      outcome := Failed;
      var made := OpenEntry(e, channel, provider, progress, total);
      if !made { return; }
      if e.isdir || e.size == 0 {
        var keepGoing := progress.Report(Info(e.path, 0, 0, 0, total, size));
        if !keepGoing {
          channel.Abort();
          return Cancelled, total;
        }
        return Finished, total;
      }
      outcome, total1 := WriteFile(e, channel, provider, progress, total);
      if outcome.Finished? {
        var ok := provider.UpdateTimes(e.path, e.times);
        if !ok {
          ghost var told := progress.calls;
          FailAndAbort(channel, progress, Info(e.path, -1, e.size, e.size, total1, size));
          HeededTwice(AsksToStop, progress.present, old(progress.calls), told, progress.calls);
          outcome := Failed;
        }
      }
    }

    /** The loop of writeTo has come to entry i. */
    ghost predicate WrittenHere(i: nat, start: Start, channel: Channel, provider: Provider, total: Size)
      requires i <= |entries| && start.contents <= provider.contents
      reads this, channel, provider
    {
      && Written(entries, i, start.packets, Since(start.contents, provider.contents), channel.Pending(), total)
      && Placed(entries, i, start.names, start.dirs, start.stamps, provider.names, provider.dirs, provider.stamps)
    }

    method WriteNext(i: nat, ghost start: Start, channel: Channel, provider: Provider, progress: Progress, total: Size)
      returns (outcome: Outcome, total1: Size)
      requires i < |entries| && start.contents <= provider.contents && WrittenHere(i, start, channel, provider, total)
      modifies channel`incoming, channel`open, provider, progress`calls
      ensures start.contents <= provider.contents
      ensures outcome.Finished? ==> WrittenHere(i + 1, start, channel, provider, total1) && channel.open == old(channel.open)
      ensures !outcome.Finished? ==> !channel.open
      ensures Heeded(AsksToStop, progress.present, old(progress.calls), progress.calls)
      ensures outcome.Cancelled? <==> Stopped(AsksToStop, old(progress.calls), progress.calls)
      ensures provider.reliable && outcome.Failed? ==> Deliver(entries, start.packets).Refused?
      ensures !outcome.Finished? && AllRoomy(entries) && Packets(start.packets) ==>
        NeverOver(Since(start.contents, provider.contents), entries)
    {
      ghost var before, pending := provider.contents, channel.Pending();
      PlacedStep(entries, i, start.names, start.dirs, start.stamps, provider.names, provider.dirs, provider.stamps);
      outcome, total1 := WriteEntry(entries[i], channel, provider, progress, total);
      ghost var files, one := Since(start.contents, before), Since(before, provider.contents);
      assert Since(start.contents, provider.contents) == files + one;
      if outcome.Finished? {
        WrittenStep(entries, i, start.packets, files, pending, total, one, channel.Pending(), total1);
      } else {
        WrittenFails(entries, i, start.packets, files, pending, total, one);
      }
    }

    /** writeTo. `ready` says that the stream of this object was made ready and is a channel. */
    method WriteTo(ready: bool, channel: Channel, provider: Provider, progress: Progress) returns (outcome: Outcome, ghost total: Size)
      modifies channel`incoming, channel`open, provider, progress`calls
      ensures old(provider.contents) <= provider.contents
      ensures !ready ==> outcome.Failed? && provider.contents == old(provider.contents) && channel.Pending() == old(channel.Pending())
      ensures outcome.Finished? ==>
        && Deliver(entries, old(channel.Pending())) == Delivered(Since(old(provider.contents), provider.contents), channel.Pending())
        && channel.open == old(channel.open)
        && provider.names == old(provider.names) + FilePaths(entries)
        && provider.dirs == old(provider.dirs) + DirPaths(entries)
        && provider.stamps == Stamped(entries, old(provider.stamps))
      ensures ready && !outcome.Finished? ==> !channel.open
      ensures Heeded(AsksToStop, progress.present, old(progress.calls), progress.calls)
      ensures outcome.Cancelled? <==> Stopped(AsksToStop, old(progress.calls), progress.calls)
      ensures ready && provider.reliable && !outcome.Cancelled? ==>
        (outcome.Finished? <==> Deliver(entries, old(channel.Pending())).Delivered?)
      ensures AllRoomy(entries) && Packets(old(channel.Pending())) ==>
        && NeverOver(Since(old(provider.contents), provider.contents), entries)
        && (outcome.Finished? ==> total == Total(entries))
    {
      total := 0;
      if !ready { return Failed, 0; }
      ghost var start := Start(channel.Pending(), provider.contents, provider.names, provider.dirs, provider.stamps);
      var totalWritten: Size := 0;
      for i := 0 to |entries|
        invariant start.contents <= provider.contents && channel.open == old(channel.open)
        invariant Heeded(AsksToStop, progress.present, old(progress.calls), progress.calls)
        invariant !Stopped(AsksToStop, old(progress.calls), progress.calls)
        invariant WrittenHere(i, start, channel, provider, totalWritten)
      {
        ghost var told := progress.calls;
        outcome, totalWritten := WriteNext(i, start, channel, provider, progress, totalWritten);
        HeededTwice(AsksToStop, progress.present, old(progress.calls), told, progress.calls);
        if !outcome.Finished? { return; }
      }
      assert entries[..|entries|] == entries;
      total := totalWritten;
      outcome := Finished;
      WrittenAll(entries, start.packets, Since(start.contents, provider.contents), channel.Pending(), totalWritten);
    }

    /** One turn of the outer loop of readFrom. */
    method ReadEntry(e: Entry, channel: Channel, provider: Provider, progress: Progress, hint: nat, total: Size)
      returns (outcome: Outcome, total1: Size)
      modifies channel`outgoing, channel`open, progress`calls
      ensures old(channel.outgoing) <= channel.outgoing
      ensures outcome.Finished? ==>
        && SentOne(e, provider.sources, Since(old(channel.outgoing), channel.outgoing)) && Sendable(e, provider.sources)
        && channel.open == old(channel.open) && total1 == if e.isdir then total else Plus(total, e.size)
      ensures Heeded(AsksToStop, progress.present, old(progress.calls), progress.calls)
      ensures outcome.Cancelled? <==> Stopped(AsksToStop, old(progress.calls), progress.calls)
      ensures provider.reliable && channel.reliable && old(channel.open) && !outcome.Cancelled? ==>
        (outcome.Finished? <==> Sendable(e, provider.sources))
    {
      total1 := total;
      if e.isdir || e.size == 0 {
        var keepGoing := progress.Report(Info(e.path, 0, 0, 0, total, size));
        if !keepGoing {
          channel.Abort();
          return Cancelled, total;
        }
        return Finished, total;
      }
      var ok := provider.OpenForReading(e.path);
      if !ok {
        FailAndAbort(channel, progress, Info(e.path, -1, 0, e.size, total, size));
        return Failed, total;
      }
      outcome, total1 := ReadFile(e, channel, provider, progress, hint, total);
    }

    /** One turn of the inner loop of readFrom. */
    method SendBlock(e: Entry, channel: Channel, provider: Provider, progress: Progress, blockSize: int, fileRead: Size, total: Size,
                     ghost sent: seq<Bytes>, ghost total0: Size)
      returns (outcome: Outcome, bs: nat, ghost block: Bytes)
      requires e.path in provider.sources && fileRead < e.size && 0 < blockSize < S32_LIMIT
      requires Reading(e, provider.sources[e.path], sent, fileRead, total0, total)
      modifies channel`outgoing, channel`open, progress`calls
      ensures old(channel.outgoing) <= channel.outgoing
      ensures outcome.Finished? ==>
        && 1 <= bs && fileRead + bs <= e.size
        && Reading(e, provider.sources[e.path], sent + [block], fileRead + bs, total0, Plus(total, bs))
        && channel.outgoing == old(channel.outgoing) + [block]
        && channel.open == old(channel.open)
      ensures !outcome.Finished? ==> !channel.open
      ensures Heeded(AsksToStop, progress.present, old(progress.calls), progress.calls)
      ensures outcome.Cancelled? <==> Stopped(AsksToStop, old(progress.calls), progress.calls)
      ensures provider.reliable && channel.reliable && old(channel.open) && outcome.Failed? ==>
        !Readable(e, provider.sources) || e.size >= S64_LIMIT
    {
      var toRead := ToRead(blockSize, e.size, fileRead);
      var n, data := provider.Read(e.path, fileRead, toRead);
      bs, block := if n <= 0 then 0 else n, data;
      if n <= 0 {
        if provider.reliable { ReadingStuck(e, provider.sources[e.path], sent, fileRead, blockSize, total0, total); }
        FailAndAbort(channel, progress, Info(e.path, -1, fileRead, e.size, total, size));
        return Failed, bs, block;
      }
      ReadingStep(e, provider.sources[e.path], sent, fileRead, blockSize, data, total0, total);
      var ok := channel.SendPacket(data);
      if !ok {
        FailAndAbort(channel, progress, Info(e.path, -1, fileRead, e.size, total, size));
        return Failed, bs, block;
      }
      var keepGoing := progress.Report(Info(e.path, bs, fileRead + bs, e.size, Plus(total, bs), size));
      if !keepGoing {
        channel.Abort();
        return Cancelled, bs, block;
      }
      outcome := Finished;
    }

    /** The inner loop of readFrom: one file with content, just opened. */
    method ReadFile(e: Entry, channel: Channel, provider: Provider, progress: Progress, hint: nat, total: Size)
      returns (outcome: Outcome, total1: Size)
      requires Transfers(e) && e.path in provider.sources
      modifies channel`outgoing, channel`open, progress`calls
      ensures old(channel.outgoing) <= channel.outgoing
      ensures outcome.Finished? ==>
        && Cut(e, provider.sources, Since(old(channel.outgoing), channel.outgoing)) && e.size < S64_LIMIT
        && channel.open == old(channel.open) && total1 == Plus(total, e.size)
      ensures !outcome.Finished? ==> !channel.open
      ensures Heeded(AsksToStop, progress.present, old(progress.calls), progress.calls)
      ensures outcome.Cancelled? <==> Stopped(AsksToStop, old(progress.calls), progress.calls)
      ensures provider.reliable && channel.reliable && old(channel.open) && !outcome.Cancelled? ==>
        (outcome.Finished? <==> Readable(e, provider.sources) && e.size < S64_LIMIT)
    {
      total1 := total;
      var fileRead: Size := 0;
      var blockSize := BlockSize(hint);
      ghost var sent := [];
      while fileRead < e.size
        invariant channel.open == old(channel.open)
        invariant Heeded(AsksToStop, progress.present, old(progress.calls), progress.calls)
        invariant !Stopped(AsksToStop, old(progress.calls), progress.calls)
        invariant channel.outgoing == old(channel.outgoing) + sent
        invariant Reading(e, provider.sources[e.path], sent, fileRead, total, total1)
        decreases e.size - fileRead
      {
        var bs;
        ghost var block;
        ghost var told := progress.calls;
        outcome, bs, block := SendBlock(e, channel, provider, progress, blockSize, fileRead, total1, sent, total);
        HeededTwice(AsksToStop, progress.present, old(progress.calls), told, progress.calls);
        if !outcome.Finished? {
          return;
        }
        sent := sent + [block];
        fileRead := fileRead + bs;
        total1 := Plus(total1, bs);
      }
      assert Since(old(channel.outgoing), channel.outgoing) == sent;
      outcome := Finished;
    }

    method ReadNext(i: nat, ghost sent: seq<Bytes>, channel: Channel, provider: Provider, progress: Progress, hint: nat, total: Size)
      returns (outcome: Outcome, total1: Size, ghost more: seq<Bytes>)
      requires i < |entries| && Sent(entries, i, provider.sources, sent, total)
      modifies channel`outgoing, channel`open, progress`calls
      ensures channel.outgoing == old(channel.outgoing) + more
      ensures outcome.Finished? ==> Sent(entries, i + 1, provider.sources, sent + more, total1) && channel.open == old(channel.open)
      ensures Heeded(AsksToStop, progress.present, old(progress.calls), progress.calls)
      ensures outcome.Cancelled? <==> Stopped(AsksToStop, old(progress.calls), progress.calls)
      ensures provider.reliable && channel.reliable && old(channel.open) && outcome.Failed? ==>
        !AllSendable(entries, provider.sources)
    {
      ghost var before := channel.outgoing;
      outcome, total1 := ReadEntry(entries[i], channel, provider, progress, hint, total);
      more := Since(before, channel.outgoing);
      if outcome.Finished? { SendsNext(entries, i, provider.sources, sent, more); }
    }

    /** readFrom: after the last packet it waits for one more receive, so that the other side is done when it returns. */
    method ReadFrom(ready: bool, channel: Channel, provider: Provider, progress: Progress, hint: nat) returns (outcome: Outcome, ghost total: Size)
      modifies channel, progress`calls
      ensures old(channel.outgoing) <= channel.outgoing
      ensures !ready ==> outcome.Failed? && channel.outgoing == old(channel.outgoing)
      ensures outcome.Finished? ==>
        && Sends(entries, provider.sources, Since(old(channel.outgoing), channel.outgoing))
        && AllSendable(entries, provider.sources) && total == Total(entries)
      ensures Heeded(AsksToStop, progress.present, old(progress.calls), progress.calls)
      ensures outcome.Cancelled? <==> Stopped(AsksToStop, old(progress.calls), progress.calls)
      ensures ready && provider.reliable && channel.reliable && old(channel.open) && !outcome.Cancelled? ==>
        (outcome.Finished? <==> AllSendable(entries, provider.sources))
      ensures outcome.Finished? ==> channel.Pending() == if old(channel.Pending()) == [] then [] else old(channel.Pending())[1..]
      ensures !outcome.Finished? ==> channel.incoming == old(channel.incoming)
    {
      total := 0;
      if !ready { return Failed, 0; }
      var totalRead: Size := 0;
      ghost var sent: seq<Bytes> := [];
      for i := 0 to |entries|
        invariant channel.open == old(channel.open)
        invariant Heeded(AsksToStop, progress.present, old(progress.calls), progress.calls)
        invariant !Stopped(AsksToStop, old(progress.calls), progress.calls)
        invariant channel.outgoing == old(channel.outgoing) + sent && channel.incoming == old(channel.incoming)
        invariant Sent(entries, i, provider.sources, sent, totalRead)
      {
        ghost var more;
        ghost var told := progress.calls;
        outcome, totalRead, more := ReadNext(i, sent, channel, provider, progress, hint, totalRead);
        HeededTwice(AsksToStop, progress.present, old(progress.calls), told, progress.calls);
        if !outcome.Finished? { return; }
        assert channel.outgoing == old(channel.outgoing) + (sent + more);
        sent := sent + more;
      }
      assert entries[..|entries|] == entries && Since(old(channel.outgoing), channel.outgoing) == sent;
      var _ := channel.RecvPacket();
      total := totalRead;
      outcome := Finished;
    }
  }

  /** Both ends of one transfer. The packets go through the channel in order, as the channel protocol guarantees; files may be read in pieces of any
      size. The receiver ends with the declared part of every file, and nothing is left in the channel. */
  method Transfer(entries: seq<Entry>, sources: map<string, Bytes>, hint: nat) returns (sent: bool, received: bool, files: seq<Bytes>, left: nat)
    ensures sent <==> AllSendable(entries, sources)
    ensures sent ==> received && AllReadable(entries, sources) && files == Expected(entries, sources) && left == 0
  {
    var outbound := new Channel([], true);
    var reader := new Provider(sources, true);
    var silent := new Progress(false);
    var sender := new RpcDir(entries, 0);
    var outcome, _ := sender.ReadFrom(true, outbound, reader, silent, hint);
    sent := outcome.Finished?;

    var inbound := new Channel(outbound.outgoing, true);
    var writer := new Provider(map[], true);
    var receiver := new RpcDir(entries, 0);
    ghost var packets := inbound.Pending();
    var outcome1, _ := receiver.WriteTo(true, inbound, writer, silent);
    received, files, left := outcome1.Finished?, writer.contents, |inbound.incoming|;
    if sent {
      TransferExact(entries, sources, packets, []);
      assert packets + [] == packets;
    }
  }
}
