/** The socket channel with its tree of virtual channels, as the object the repository updates in place. Every channel object is an entry
    of `nodes`; the methods are the methods of the channel whose path they are given. */
module Multiplexer {
  import opened Wire
  import opened ChannelTree
  import opened TreeInvariant
  import opened Routing
  import opened SendingQueue
  import opened Framing
  import opened Cascade

  datatype SendResult = Queued(ticket: nat) | TooLarge | Blocked | Disconnected

  datatype RecvResult = Packet(data: Bytes) | Broken | WouldBlock

  /** The entries of the sending queue are the packets ms, wrapped. */
  ghost predicate Stands(es: seq<Entry>, ms: seq<Msg>) {
    && |es| == |ms|
    && forall i :: 0 <= i < |es| ==> Addressable(ms[i].path) && Packable(ms[i].body) && es[i].frame == Encode(ms[i])
  }

  lemma {:induction false} KeptStands(es: seq<Entry>, ms: seq<Msg>, p: Path, n: nat)
    requires Stands(es, ms) && Addressable(p) && 2 <= n
    ensures Stands(Kept(es, CleanTest(p, n, ANY)), Purge(ms, Sub(p, n)))
  {
    if es != [] {
      var k := |es| - 1;
      KeptStands(es[..k], ms[..k], p, n);
      CleanTestIsUnder(p, n, ms[k]);
    }
  }

  lemma {:induction false} AddressableNode(c: Conn, p: Path)
    requires TreeShape(c) && p in c.nodes
    ensures Addressable(p)
  {
    if p.Sub? {
      assert p == Sub(p.parent, p.number);
      AddressableNode(c, p.parent);
    }
  }

  /** put_many at the front, one by one from the back of the list. */
  method ReturnManyForcely(queue: seq<nat>, items: seq<nat>) returns (r: seq<nat>)
    ensures r == items + queue
  {
    r := queue;
    var i := |items|;
    while i > 0
      invariant 0 <= i <= |items| && r == items[i..] + queue
    {
      i := i - 1;
      r := [items[i]] + r;
    }
  }

  lemma {:induction false} WithoutSkips(s: seq<nat>, i: nat, n: nat)
    requires i <= |s| && forall j :: 0 <= j < i ==> s[j] != n
    ensures Without(s, n) == s[..i] + Without(s[i..], n)
    ensures i < |s| && s[i] == n ==> Without(s, n) == s[..i] + s[i + 1..]
  {
    if i == 0 {
      assert s[0..] == s;
    } else {
      WithoutSkips(s[1..], i - 1, n);
      assert s[1..][i - 1..] == s[i..];
      assert s[..i] == [s[0]] + s[1..][..i - 1];
    }
  }

  lemma DestroyedParts(c: Conn, p: Path, n: nat)
    requires Open(c, p) && n in c.nodes[p].channels
    ensures var c1, q := TakeChannel(c, p, n), Sub(p, n);
      Destroyed(c, p, n) == c1.(nodes := CloseUnder(Forget(c1.nodes, p, n), q, RemotePeerClosedError, false), queue := Purge(c1.queue, q))
  {
  }

  lemma DestroyReady(c: Conn, p: Path, n: nat)
    requires Skeleton(c) && Open(c, p) && Open(c, Sub(p, n))
    ensures var q, f := Sub(p, n), Forget(c.nodes, p, n);
      && q in f && f[q].error == NoError && var d := f[q := f[q].(attached := false)];
      Shape(d, q) && CloseUnder(d, q, RemotePeerClosedError, false) == CloseUnder(f, q, RemotePeerClosedError, false)
  {
    var q := Sub(p, n);
    ParentAbove(q);
    OpenShapeIsShape(c, q);
    ForgetShape(c.nodes, q, p, n);
    DetachShape(Forget(c.nodes, p, n), q);
    DetachClose(Forget(c.nodes, p, n), q, RemotePeerClosedError);
  }

  /** What the receive loop makes of the frames of a stream that then ends with `end`. */
  function Arrivals(c: Conn, fs: seq<Frame>, end: ChannelError): Conn
    decreases |fs|
  {
    if fs == [] then CloseRoot(c, end)
    else
      var (c1, ok) := HandleIncoming(c, Root, fs[0].number, fs[0].payload);
      if ok then Arrivals(c1, fs[1..], end) else CloseRoot(c1, InvalidCommand)
  }

  predicate AllAcceptable(c: Conn, fs: seq<Frame>)
    decreases |fs|
  {
    fs == [] ||
    (Acceptable(c, Root, fs[0].number, fs[0].payload)
     && var (c1, ok) := HandleIncoming(c, Root, fs[0].number, fs[0].payload); ok ==> AllAcceptable(c1, fs[1..]))
  }

  class SocketDataChannel {
    var nodes: Nodes
    const queue: Queue
    const maxPayload: nat
    ghost var msgs: seq<Msg>

    ghost function Abs(): Conn reads this { Conn(nodes, msgs, maxPayload) }

    ghost predicate Rep() reads this, queue {
      queue.Valid() && Stands(queue.entries, msgs)
    }

    ghost predicate Valid() reads this, queue {
      Rep() && WellFormed(Abs())
    }

    constructor (positive: bool, capacity: nat, maxPayload: nat)
      ensures Valid() && fresh(queue)
      ensures Abs() == Conn(map[Root := NewNode(positive, capacity)], [], maxPayload)
    {
      nodes := map[Root := NewNode(positive, capacity)];
      queue := new Queue();
      this.maxPayload := maxPayload;
      msgs := [];
    }

    /** is_ok: no error here nor in any parent. */
    predicate IsOk(p: Path) reads this`nodes {
      OkIn(nodes, p)
    }

    lemma OkIsOpen(p: Path)
      requires OpenShape(Abs())
      ensures IsOk(p) <==> Open(Abs(), p)
    {
      if p.Sub? {
        assert p == Sub(p.parent, p.number);
        OkIsOpen(p.parent);
      }
    }

    /** max_payload_size */
    function MaxPayloadOf(p: Path): int reads this`nodes {
      match p
      case Root => maxPayload
      case Sub(parent, _) => if p in nodes && nodes[p].attached then MaxPayloadOf(parent) - 4 else 1400
    }

    /** max_packet_size */
    function MaxPacketOf(p: Path): int reads this`nodes {
      match p
      case Root => maxPayload + 8
      case Sub(parent, _) => if p in nodes && nodes[p].attached then MaxPayloadOf(parent) else 1400
    }

    lemma SizesOfOpen(p: Path)
      requires OpenShape(Abs()) && Open(Abs(), p)
      ensures MaxPayloadOf(p) == MaxPayloadSize(Abs(), p) && MaxPacketOf(p) == MaxPacketSize(Abs(), p)
    {
      if p.Sub? {
        assert p == Sub(p.parent, p.number);
        SizesOfOpen(p.parent);
      }
    }

    /** _put_packet_in_sending_queue, from the channel p up to the socket channel; m is the packet this puts in the queue. */
    method PutPacket(p: Path, number: nat, packet: Bytes, ghost m: Msg)
      requires Rep() && Addressable(p) && number < U32_LIMIT && Addressable(m.path) && Packable(m.body)
      requires Wrap(p, number, packet) == Encode(m)
      modifies this`msgs, queue
      ensures Rep() && msgs == if IsOk(p) then old(msgs) + [m] else old(msgs)
      ensures queue.entries == if IsOk(p) then old(queue.entries) + [Entry(Encode(m), None)] else old(queue.entries)
      ensures queue.outcomes == old(queue.outcomes) && queue.inFlight == old(queue.inFlight)
    {
      if !IsOk(p) { return; }
      match p
      case Root =>
        var _ := queue.Put(Frame(number, packet), false);
        msgs := msgs + [m];
      case Sub(parent, n) =>
        PutPacket(parent, n, PackU32(number) + packet, m);
    }

    /** _send_packet: the same way up, with a completion event; None is the IOError of a channel that is not ok. */
    method PutAndWait(p: Path, number: nat, packet: Bytes, ghost m: Msg) returns (ticket: Option<nat>)
      requires Rep() && Addressable(p) && number < U32_LIMIT && Addressable(m.path) && Packable(m.body)
      requires Wrap(p, number, packet) == Encode(m)
      modifies this`msgs, queue
      ensures Rep() && msgs == if IsOk(p) then old(msgs) + [m] else old(msgs)
      ensures queue.entries == if IsOk(p) then old(queue.entries) + [Entry(Encode(m), ticket)] else old(queue.entries)
      ensures ticket == if IsOk(p) then Some(old(queue.nextTicket)) else None
      ensures queue.outcomes == old(queue.outcomes) && queue.inFlight == old(queue.inFlight)
    {
      if !IsOk(p) { return None; }
      match p
      case Root =>
        ticket := queue.Put(Frame(number, packet), true);
        msgs := msgs + [m];
      case Sub(parent, n) =>
        ticket := PutAndWait(parent, n, PackU32(number) + packet, m);
    }

    /** send_packet. A shut gate makes the caller wait; nothing happens until it opens. */
    method SendPacket(p: Path, packet: Bytes) returns (r: SendResult)
      requires Valid() && p in nodes
      modifies this`msgs, queue
      ensures Valid()
      ensures r.TooLarge? <==> |packet| > MaxPacketOf(p)
      ensures old(Open(Abs(), p)) ==> (r.TooLarge? <==> |packet| > MaxPacketSize(old(Abs()), p))
      ensures r.Blocked? <==> !r.TooLarge? && !nodes[p].goThrough
      ensures r.Queued? <==> !r.TooLarge? && !r.Blocked? && Open(Abs(), p)
      ensures Abs() == if r.Queued? then Enqueue(old(Abs()), Msg(p, Data(packet))) else old(Abs())
      ensures r.Queued? ==> r.ticket == old(queue.nextTicket) && r.ticket !in queue.outcomes
      ensures queue.outcomes == old(queue.outcomes) && queue.inFlight == old(queue.inFlight)
    {
      if Open(Abs(), p) { SizesOfOpen(p); }
      if |packet| > MaxPacketOf(p) { return TooLarge; }
      if !nodes[p].goThrough { return Blocked; }
      OkIsOpen(p);
      AddressableNode(Abs(), p);
      ghost var c := Abs();
      var ticket := PutAndWait(p, DATA_CHANNEL_NUMBER, packet, Msg(p, Data(packet)));
      EnqueueKeeps(c, Msg(p, Data(packet)));
      if ticket == None { return Disconnected; }
      r := Queued(ticket.value);
      assert WaitsIn(queue.entries, ticket.value) by {
        assert Waits(queue.entries[|queue.entries| - 1], ticket.value);
      }
    }

    /** recv_packet: GO_THROUGH is sent when the queue leaves the full state. */
    method RecvPacket(p: Path) returns (r: RecvResult)
      requires Valid() && p in nodes
      modifies this, queue
      ensures Valid()
      ensures var nd := old(nodes)[p];
        if nd.received != [] then r == Packet(nd.received[0]) && Abs() == TakePacket(old(Abs()), p)
        else Abs() == old(Abs()) && (r.Broken? <==> nd.error != NoError) && (r.WouldBlock? <==> nd.error == NoError)
    {
      var nd := nodes[p];
      if nd.received == [] {
        return if nd.error != NoError then Broken else WouldBlock;
      }
      ghost var c := Abs();
      r := Packet(nd.received[0]);
      nodes := nodes[p := nd.(received := nd.received[1..])];
      TakePacketKeeps(c, p);
      if |nodes[p].received| == nd.capacity - 1 {
        FieldsKeep(c, Abs(), p);
        OkIsOpen(p);
        AddressableNode(Abs(), p);
        PutPacket(p, COMMAND_CHANNEL_NUMBER, PackCommand(GoThrough), Msg(p, GoThrough));
      }
    }

    /** make_channel; the number must still be free, which holds while both ends together make at most 2^32 - 2 channels. */
    method MakeSubChannel(p: Path) returns (n: nat)
      requires Valid() && Fresh(Abs(), p)
      modifies this, queue
      ensures Valid() && n == old(nodes)[p].next && Abs() == Make(old(Abs()), p)
    {
      ghost var c := Abs();
      var nd := nodes[p];
      n := nd.next;
      nodes := nodes[p := nd.(next := n + Step(nd), channels := nd.channels + {n})][Sub(p, n) := NewNode(true, nd.capacity)];
      assert Abs() == MakeNode(c, p);
      MakeNodeKeeps(c, p);
      OkIsOpen(p);
      AddressableNode(Abs(), p);
      EnqueueKeeps(Abs(), Msg(p, MakeChannel(n)));
      PutPacket(p, COMMAND_CHANNEL_NUMBER, PackCommand(MakeChannel(n)), Msg(p, MakeChannel(n)));
    }

    /** take_channel with a number. */
    method TakeSubChannel(p: Path, n: nat) returns (found: bool)
      requires Valid() && p in nodes
      modifies this`nodes
      ensures Valid() && Abs() == TakeChannel(old(Abs()), p, n)
      ensures found <==> Open(old(Abs()), p) && n in old(nodes)[p].pending
    {
      OkIsOpen(p);
      if !IsOk(p) { return false; }
      ghost var c, all := Abs(), nodes[p].pending;
      var pending, tmp := nodes[p].pending, [];
      found := false;
      while pending != [] && !found
        invariant |tmp| <= |all| && tmp == all[..|tmp|] && (forall j :: 0 <= j < |tmp| ==> all[j] != n)
        invariant if found then |tmp| < |all| && all[|tmp|] == n && pending == all[|tmp| + 1..] else pending == all[|tmp|..]
        decreases |pending|
      {
        var k := pending[0];
        pending := pending[1..];
        if k == n { found := true; } else { tmp := tmp + [k]; }
      }
      WithoutSkips(all, |tmp|, n);
      pending := ReturnManyForcely(pending, tmp);
      assert pending == Without(all, n);
      TakeChannelKeeps(c, p, n);
      nodes := nodes[p := nodes[p].(pending := pending)];
    }

    /** _clean_sending_packet of channel `sub` of p, with the test `check` for the packets below it. */
    method CleanSendingPacket(p: Path, sub: nat, check: Bytes -> bool)
      requires queue.Valid()
      modifies queue
      ensures queue.Valid() && queue.inFlight == old(queue.inFlight) && Keeps(old(queue.outcomes), queue.outcomes) && queue.nextTicket == old(queue.nextTicket)
      ensures queue.entries == if p.Root? || IsOk(p) then Kept(old(queue.entries), CleanTest(p, sub, check)) else old(queue.entries)
      ensures queue.outcomes == if p.Root? || IsOk(p) then Failed(old(queue.outcomes), old(queue.entries), CleanTest(p, sub, check))
                                else old(queue.outcomes)
    {
      match p
      case Root =>
        queue.Clean(CleanTest(Root, sub, check));
      case Sub(parent, n) =>
        if !IsOk(p) { return; }
        CleanSendingPacket(parent, n, HeaderTest(sub, check));
    }

    /** _clean_channel: the table entry goes, DESTROY is sent if asked for, and the packets of the channel leave the queue. */
    method CleanChannel(p: Path, n: nat, sendDestroy: bool)
      requires Rep() && Addressable(p) && IsOk(p) && 2 <= n < U32_LIMIT
      modifies this, queue
      ensures Rep() && queue.inFlight == old(queue.inFlight) && Keeps(old(queue.outcomes), queue.outcomes)
      ensures if n in old(nodes)[p].channels
        then nodes == Forget(old(nodes), p, n)
             && msgs == Purge(old(msgs) + if sendDestroy then [Msg(p, DestroyChannel(n))] else [], Sub(p, n))
        else nodes == old(nodes) && msgs == old(msgs)
    {
      if n !in nodes[p].channels { return; }
      nodes := nodes[p := nodes[p].(channels := nodes[p].channels - {n})];
      OkSame(old(nodes), p, n, p);
      if sendDestroy {
        PutPacket(p, COMMAND_CHANNEL_NUMBER, PackCommand(DestroyChannel(n)), Msg(p, DestroyChannel(n)));
      } else {
        assert msgs + [] == msgs;
      }
      KeptStands(queue.entries, msgs, p, n);
      CleanSendingPacket(p, n, ANY);
      msgs := Purge(msgs, Sub(p, n));
    }

    /** A child leaves the table and loses its parent. */
    method DetachChild(q: Path, k: nat)
      requires q in nodes && Sub(q, k) in nodes
      modifies this`nodes
      ensures nodes == Popped(old(nodes), q, k)
    {
      ParentAbove(Sub(q, k));
      nodes := nodes[q := nodes[q].(channels := nodes[q].channels - {k})];
      nodes := nodes[Sub(q, k) := nodes[Sub(q, k)].(attached := false)];
    }

    /** The part of close() every channel shares: the gate opens, and the children are popped from the table, detached and closed. */
    method CloseBase(q: Path, reason: ChannelError)
      requires q in nodes && nodes[q].error != NoError && reason != NoError && Shape(nodes, q)
      modifies this`nodes
      ensures nodes == CloseSome(old(nodes), q, {}, reason)
      decreases OpenSet(nodes), 1
    {
      ghost var start := nodes;
      nodes := nodes[q := nodes[q].(goThrough := true)];
      CloseSomeStart(start, q, reason);
      while nodes[q].channels != {}
        invariant q in nodes && nodes[q].channels <= start[q].channels
        invariant nodes == CloseSome(start, q, nodes[q].channels, reason)
        decreases nodes[q].channels
      {
        var k :| k in nodes[q].channels;
        PoppedChild(start, q, nodes[q].channels, k, reason);
        DetachChild(q, k);
        CloseDetached(Sub(q, k), reason);
      }
    }

    /** close() of a virtual channel without a parent: nothing to clean above it. */
    method CloseDetached(q: Path, reason: ChannelError)
      requires q in nodes && !nodes[q].attached && reason != NoError && Shape(nodes, q)
      modifies this`nodes
      ensures nodes == if old(nodes)[q].error != NoError then old(nodes) else CloseUnder(old(nodes), q, reason, false)
      decreases OpenSet(nodes), 0
    {
      if nodes[q].error != NoError { return; }
      ghost var before := nodes;
      nodes := nodes[q := nodes[q].(error := reason)];
      ErrorShape(before, q, reason);
      CloseWhole(before, q, reason, false);
      assert OpenSet(nodes) < OpenSet(before) by { assert q in OpenSet(before) && q !in OpenSet(nodes); }
      CloseBase(q, reason);
    }

    /** close() of a virtual channel. */
    method CloseChannel(q: Path, reason: ChannelError)
      requires Rep() && Skeleton(Abs()) && q.Sub? && q in nodes && reason != NoError
      modifies this, queue
      ensures Rep() && Skeleton(Abs()) && queue.inFlight == old(queue.inFlight) && Keeps(old(queue.outcomes), queue.outcomes)
      ensures Abs() == Close(old(Abs()), q, reason)
    {
      ghost var c := Abs();
      var p, n := q.parent, q.number;
      assert q == Sub(p, n);
      if nodes[q].error != NoError { return; }
      CloseSkeleton(c, q, reason);
      AddressableNode(c, q);
      OkIsOpen(p);
      ParentAbove(q);
      OkElsewhere(nodes, q, nodes[q].(error := reason), p);
      nodes := nodes[q := nodes[q].(error := reason)];
      if nodes[q].attached {
        CleanChannel(p, n, true);
      }
      MarkThenForget(c.nodes, q, p, n, reason);
      OpenShapeIsShape(c, q);
      ForgetShape(c.nodes, q, p, n);
      ErrorShape(Forget(c.nodes, p, n), q, reason);
      CloseWhole(Forget(c.nodes, p, n), q, reason, true);
      CloseBase(q, reason);
    }

    /** close() of the socket channel: the sending queue is drained first, its waiting senders fail. */
    method CloseConnection(reason: ChannelError)
      requires Rep() && Skeleton(Abs()) && reason != NoError
      modifies this, queue
      ensures Valid() && queue.inFlight == old(queue.inFlight) && Keeps(old(queue.outcomes), queue.outcomes)
      ensures Abs() == CloseRoot(old(Abs()), reason)
      ensures old(nodes)[Root].error == NoError ==> queue.entries == []
    {
      ghost var c := Abs();
      CloseRootKeeps(c, reason);
      if nodes[Root].error != NoError { return; }
      nodes := nodes[Root := nodes[Root].(error := reason)];
      queue.Drain();
      msgs := [];
      OpenShapeIsShape(c, Root);
      ErrorShape(c.nodes, Root, reason);
      CloseWhole(c.nodes, Root, reason, true);
      CloseBase(Root, reason);
    }

    /** _make_channel for a MAKE command of the other end. */
    method Announce(p: Path, n: nat)
      requires Valid() && Open(Abs(), p) && Sub(p, n) !in nodes && 2 <= n < U32_LIMIT
      modifies this`nodes
      ensures Valid() && Abs() == Announced(old(Abs()), p, n)
    {
      AnnouncedKeeps(Abs(), p, n);
      var nd := nodes[p];
      nodes := nodes[p := nd.(channels := nd.channels + {n}, pending := nd.pending + [n])][Sub(p, n) := NewNode(false, nd.capacity)];
    }

    /** The channel a DESTROY names leaves the table, its packets leave the queue, and it is detached and closed. */
    method ShutByPeer(p: Path, n: nat)
      requires Rep() && Skeleton(Abs()) && Open(Abs(), p) && Open(Abs(), Sub(p, n))
      modifies this, queue
      ensures Rep() && queue.inFlight == old(queue.inFlight) && Keeps(old(queue.outcomes), queue.outcomes)
      ensures nodes == CloseUnder(Forget(old(nodes), p, n), Sub(p, n), RemotePeerClosedError, false)
      ensures msgs == Purge(old(msgs), Sub(p, n))
    {
      AddressableNode(Abs(), Sub(p, n));
      DestroyReady(Abs(), p, n);
      OkIsOpen(p);
      assert msgs + [] == msgs;
      CleanChannel(p, n, false);
      nodes := nodes[Sub(p, n) := nodes[Sub(p, n)].(attached := false)];
      CloseDetached(Sub(p, n), RemotePeerClosedError);
    }

    /** A DESTROY command: the channel also leaves `pending`; nothing is sent back. */
    method HandleDestroy(p: Path, n: nat)
      requires Valid() && Open(Abs(), p)
      modifies this, queue
      ensures Valid() && Abs() == Destroyed(old(Abs()), p, n)
      ensures queue.inFlight == old(queue.inFlight) && Keeps(old(queue.outcomes), queue.outcomes)
    {
      ghost var c := Abs();
      DestroyedKeeps(c, p, n);
      var known := n in nodes[p].channels;
      if known { ShutKnown(p, n); } else { IgnoreUnknown(p, n); }
    }

    method ShutKnown(p: Path, n: nat)
      requires Valid() && Open(Abs(), p) && n in nodes[p].channels
      modifies this, queue
      ensures Rep() && Abs() == Destroyed(old(Abs()), p, n)
      ensures queue.inFlight == old(queue.inFlight) && Keeps(old(queue.outcomes), queue.outcomes)
    {
      DestroyedParts(Abs(), p, n);
      assert Open(Abs(), Sub(p, n));
      var _ := TakeSubChannel(p, n);
      ShutByPeer(p, n);
    }

    method IgnoreUnknown(p: Path, n: nat)
      requires Valid() && Open(Abs(), p) && n !in nodes[p].channels
      modifies this`nodes
      ensures Valid() && Abs() == old(Abs())
    {
      PendingInTable(Abs(), p, n);
      WithoutNothing(nodes[p].pending, n);
      var _ := TakeSubChannel(p, n);
    }

    /** _handle_command */
    method HandleCommandPacket(p: Path, packet: Bytes) returns (ok: bool)
      requires Valid() && Open(Abs(), p) && Acceptable(Abs(), p, COMMAND_CHANNEL_NUMBER, packet)
      modifies this, queue
      ensures Valid() && (Abs(), ok) == HandleCommand(old(Abs()), p, packet)
      ensures queue.inFlight == old(queue.inFlight) && Keeps(old(queue.outcomes), queue.outcomes)
    {
      var b := UnpackCommand(packet);
      if b == None { return false; }
      ok := true;
      match b.value
      case MakeChannel(n) => Announce(p, n);
      case DestroyChannel(n) => HandleDestroy(p, n);
      case SlowDown =>
        SetGateKeeps(Abs(), p, false);
        nodes := nodes[p := nodes[p].(goThrough := false)];
      case GoThrough =>
        SetGateKeeps(Abs(), p, true);
        nodes := nodes[p := nodes[p].(goThrough := true)];
      case ChannelMade(_) =>
      case Keepalive =>
    }

    /** The data branch of _handle_incoming_packet: SLOW_DOWN is sent when this packet fills the receiving queue. */
    method ReceiveData(p: Path, d: Bytes)
      requires Valid() && Open(Abs(), p)
      modifies this, queue
      ensures Valid() && Abs() == Receive(old(Abs()), p, d) && queue.inFlight == old(queue.inFlight) && Keeps(old(queue.outcomes), queue.outcomes)
    {
      ghost var c := Abs();
      ReceiveKeeps(c, p, d);
      OkIsOpen(p);
      AddressableNode(c, p);
      if |nodes[p].received| == nodes[p].capacity - 1 {
        PutPacket(p, COMMAND_CHANNEL_NUMBER, PackCommand(SlowDown), Msg(p, SlowDown));
      }
      nodes := nodes[p := nodes[p].(received := nodes[p].received + [d])];
    }

    /** _handle_incoming_packet */
    method HandleIncomingPacket(p: Path, number: nat, payload: Bytes) returns (ok: bool)
      requires Valid() && Open(Abs(), p) && Acceptable(Abs(), p, number, payload)
      modifies this, queue
      ensures Rep() && Skeleton(Abs()) && (ok ==> Valid()) && queue.inFlight == old(queue.inFlight) && Keeps(old(queue.outcomes), queue.outcomes)
      ensures (Abs(), ok) == HandleIncoming(old(Abs()), p, number, payload)
      decreases |payload|
    {
      if number == COMMAND_CHANNEL_NUMBER {
        ok := HandleCommandPacket(p, payload);
      } else if number == DATA_CHANNEL_NUMBER {
        ReceiveData(p, payload);
        ok := true;
      } else if number !in nodes[p].channels {
        ok := true;
      } else if |payload| < 4 {
        ok := false;
      } else {
        assert Open(Abs(), Sub(p, number));
        ok := HandleIncomingPacket(Sub(p, number), UnpackU32(payload[..4]), payload[4..]);
        if !ok {
          CloseChannel(Sub(p, number), InvalidPacket);
        }
      }
    }

    /** _do_receive: frame by frame, until the stream ends, a frame is over the limit, or one cannot be handled. */
    method DoReceive(connection: Connection)
      requires Valid() && Open(Abs(), Root)
      requires var r := Parse(connection.incoming, maxPayload); AllAcceptable(Abs(), r.0)
      modifies this, queue, connection`incoming
      ensures Valid() && queue.inFlight == old(queue.inFlight) && Keeps(old(queue.outcomes), queue.outcomes)
      ensures var r := Parse(old(connection.incoming), maxPayload); Abs() == Arrivals(old(Abs()), r.0, r.1)
    {
      ghost var c, all := Abs(), Parse(connection.incoming, maxPayload);
      while true
        invariant Valid() && Open(Abs(), Root) && queue.inFlight == old(queue.inFlight) && Keeps(old(queue.outcomes), queue.outcomes)
        invariant var r := Parse(connection.incoming, maxPayload);
          AllAcceptable(Abs(), r.0) && Arrivals(Abs(), r.0, r.1) == Arrivals(c, all.0, all.1)
        decreases |connection.incoming|
      {
        var error, f := connection.NextFrame(maxPayload);
        if error != NoError {
          CloseConnection(error);
          return;
        }
        IncomingKeeps(Abs(), Root, f.number, f.payload);
        var ok := HandleIncomingPacket(Root, f.number, f.payload);
        if !ok {
          CloseConnection(InvalidCommand);
          return;
        }
      }
    }

    /** One turn of _do_send, up to the moment the frame is handed to the socket. */
    method BeginSend() returns (e: Entry)
      requires Valid() && queue.inFlight == None && queue.entries != []
      modifies this`msgs, queue
      ensures Valid() && e == old(queue.entries)[0] && queue.inFlight == Some(e)
      ensures Abs() == old(Abs()).(queue := old(msgs)[1..]) && e.frame == Encode(old(msgs)[0])
    {
      QueueTail(Abs());
      e := queue.Begin();
      msgs := msgs[1..];
    }

    /** The rest of the turn; `written` says whether sendall succeeded. Anything that happened in between, close() included, is in the
        state this starts from. */
    method EndSend(connection: Connection, written: bool)
      requires Valid() && queue.inFlight.Some?
      modifies this, queue, connection`outgoing
      ensures Valid() && queue.inFlight == None
      ensures var f := old(queue.inFlight).value.frame;
        if old(nodes)[Root].error != NoError then Abs() == old(Abs()) && connection.outgoing == old(connection.outgoing)
        else if !Packed(f) then Abs() == CloseRoot(old(Abs()), UnknownError) && connection.outgoing == old(connection.outgoing)
        else if !written then Abs() == CloseRoot(old(Abs()), SendingError) && connection.outgoing == old(connection.outgoing)
        else Abs() == old(Abs()) && connection.outgoing == old(connection.outgoing) + FrameBytes(f)
      ensures var d := old(queue.inFlight).value.done;
        d.Some? ==> d.value in queue.outcomes &&
                    (queue.outcomes[d.value] <==>
                       old(nodes)[Root].error == NoError && Packed(old(queue.inFlight).value.frame) && written)
    {
      var f := queue.inFlight.value.frame;
      ghost var d := queue.inFlight.value.done;
      if nodes[Root].error != NoError {
        queue.End(false);
      } else if |f.payload| >= U32_LIMIT || f.number >= U32_LIMIT {
        queue.End(false);
        CloseConnection(UnknownError);
      } else if !written {
        queue.End(false);
        CloseConnection(SendingError);
      } else {
        connection.SendAll(FrameBytes(f));
        queue.End(true);
      }
    }
  }
}
