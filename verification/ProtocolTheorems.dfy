/** What holds in every reachable state of two connected ends. */
module ProtocolTheorems {
  import opened Wire
  import opened ChannelTree
  import opened TreeInvariant
  import opened ChannelLog
  import opened EndHistory
  import opened EndChange
  import opened EndClose
  import opened Transport
  import opened Protocol

  ghost predicate Reachable(n: Net) {
    exists states, events :: Run(states, events) && states[|states| - 1] == n
  }

  lemma ReachableInv(n: Net)
    requires Reachable(n)
    ensures Inv(n)
  {
    var states, events :| Run(states, events) && states[|states| - 1] == n;
    RunKeepsInv(states, events, |states| - 1);
  }

  // ---- The two channel tables converge ----

  lemma InStream(src: End, link: seq<Msg>, dst: End, p: Path, b: Body)
    requires Direction(src, link, dst) && Open(src.conn, p) && Open(dst.conn, p) && OpenShape(dst.conn)
    requires b in Log(p, src.emitted) && b !in Log(p, dst.accepted)
    ensures Msg(p, b) in Stream(src, link)
  {
    OpenIsNotDead(dst.conn, p);
    assert Carried(src, link, dst, p);
    LogConcat(p, dst.accepted, Stream(src, link));
    InLog(p, b, Stream(src, link));
  }

  /** x has number k in the table of p and y does not: the MAKE or the DESTROY that explains it is under way. */
  ghost predicate Explained(x: End, xy: seq<Msg>, y: End, yx: seq<Msg>, p: Path, k: nat) {
    || (Msg(p, MakeChannel(k)) in Stream(x, xy) && Sub(p, k) !in y.conn.nodes)
    || (Msg(p, DestroyChannel(k)) in Stream(y, yx) && Sub(p, k) in y.conn.nodes)
  }

  lemma TablesOneWay(n: Net, p: Path, k: nat)
    requires Inv(n) && Open(n.a.conn, p) && Open(n.b.conn, p)
    requires k in n.a.conn.nodes[p].channels && k !in n.b.conn.nodes[p].channels
    ensures Explained(n.a, n.ab, n.b, n.ba, p, k)
  {
    var q := Sub(p, k);
    assert Open(n.a.conn, q) && !Open(n.b.conn, q);
    if q in n.b.conn.nodes {
      ClosedExplained(n, p, k);
    } else {
      MissingExplained(n, p, k);
    }
  }

  lemma ClosedExplained(n: Net, p: Path, k: nat)
    requires Inv(n) && Open(n.a.conn, p) && Open(n.b.conn, p)
    requires Open(n.a.conn, Sub(p, k)) && Sub(p, k) in n.b.conn.nodes && !Open(n.b.conn, Sub(p, k))
    ensures Msg(p, DestroyChannel(k)) in Stream(n.b, n.ba)
  {
    assert DestroyOf(n.a, p, k) && DestroyOf(n.b, p, k);
    if DestroyChannel(k) in Log(p, n.b.accepted) {
      AcceptedWasEmitted(n.a, n.ab, n.b, p, DestroyChannel(k));
    }
    InStream(n.b, n.ba, n.a, p, DestroyChannel(k));
  }

  lemma MissingExplained(n: Net, p: Path, k: nat)
    requires Inv(n) && Open(n.a.conn, p) && Open(n.b.conn, p)
    requires Open(n.a.conn, Sub(p, k)) && Sub(p, k) !in n.b.conn.nodes
    ensures Msg(p, MakeChannel(k)) in Stream(n.a, n.ab)
  {
    assert KidOf(n.a, p, k) && KidOf(n.b, p, k);
    if MakeChannel(k) in Log(p, n.a.accepted) {
      AcceptedWasEmitted(n.b, n.ba, n.a, p, MakeChannel(k));
    }
    InStream(n.a, n.ab, n.b, p, MakeChannel(k));
  }

  /** In every reachable state, a number in one end's table and not in the other's is explained by a packet under way. */
  lemma TablesExplained(n: Net, p: Path, k: nat)
    requires Reachable(n) && Open(n.a.conn, p) && Open(n.b.conn, p)
    ensures k in n.a.conn.nodes[p].channels && k !in n.b.conn.nodes[p].channels ==> Explained(n.a, n.ab, n.b, n.ba, p, k)
    ensures k in n.b.conn.nodes[p].channels && k !in n.a.conn.nodes[p].channels ==> Explained(n.b, n.ba, n.a, n.ab, p, k)
  {
    ReachableInv(n);
    if k in n.a.conn.nodes[p].channels && k !in n.b.conn.nodes[p].channels { TablesOneWay(n, p, k); }
    SwapInv(n);
    if k in n.b.conn.nodes[p].channels && k !in n.a.conn.nodes[p].channels { TablesOneWay(Swap(n), p, k); }
  }

  predicate Quiescent(n: Net) {
    n.ab == [] && n.ba == [] && n.a.conn.queue == [] && n.b.conn.queue == []
  }

  /** With nothing under way and the connection up, both ends have the same tree of channels and the same tables. */
  lemma {:induction false} TreesConverge(n: Net, p: Path)
    requires Reachable(n) && Quiescent(n) && Open(n.a.conn, Root) && Open(n.b.conn, Root)
    ensures Open(n.a.conn, p) <==> Open(n.b.conn, p)
    ensures Open(n.a.conn, p) ==> n.a.conn.nodes[p].channels == n.b.conn.nodes[p].channels
  {
    if p.Sub? {
      assert p == Sub(p.parent, p.number);
      TreesConverge(n, p.parent);
      ReachableInv(n);
      SameOpen(n, p.parent, p.number);
    } else {
    }
    if Open(n.a.conn, p) { SameTables(n, p); }
  }

  lemma SameTables(n: Net, p: Path)
    requires Reachable(n) && Quiescent(n) && Open(n.a.conn, p) && Open(n.b.conn, p)
    ensures n.a.conn.nodes[p].channels == n.b.conn.nodes[p].channels
  {
    forall k ensures k in n.a.conn.nodes[p].channels <==> k in n.b.conn.nodes[p].channels {
      TablesExplained(n, p, k);
    }
  }

  lemma SameOpen(n: Net, p: Path, k: nat)
    requires Inv(n) && (Open(n.a.conn, p) <==> Open(n.b.conn, p))
    requires Open(n.a.conn, p) ==> n.a.conn.nodes[p].channels == n.b.conn.nodes[p].channels
    ensures Open(n.a.conn, Sub(p, k)) <==> Open(n.b.conn, Sub(p, k))
  {
    if Open(n.a.conn, Sub(p, k)) || Open(n.b.conn, Sub(p, k)) {
      assert Open(n.a.conn, p) && Open(n.b.conn, p);
      assert k in n.a.conn.nodes[p].channels;
    }
  }

  // ---- Data ----

  function ReceivedBy(e: End, p: Path): seq<Bytes> {
    Datas(Log(p, e.taken)) + if p in e.conn.nodes then e.conn.nodes[p].received else []
  }

  function SentBy(e: End, p: Path): seq<Bytes> { Datas(Log(p, e.emitted)) }

  function Underway(src: End, link: seq<Msg>, p: Path): seq<Bytes> { Datas(Log(p, Stream(src, link))) }

  lemma ReceivedIsAccepted(e: End, p: Path)
    requires Local(e)
    ensures ReceivedBy(e, p) == Datas(Log(p, e.accepted))
  {
    if p !in e.conn.nodes {
      assert Log(p, e.taken) == [] && Log(p, e.accepted) == [];
    }
  }

  lemma DeliveryOneWay(n: Net, p: Path)
    requires Inv(n)
    ensures ReceivedBy(n.b, p) <= SentBy(n.a, p)
    ensures Open(n.a.conn, p) && Open(n.b.conn, p) ==> ReceivedBy(n.b, p) + Underway(n.a, n.ab, p) == SentBy(n.a, p)
  {
    assert Carried(n.a, n.ab, n.b, p);
    ReceivedIsAccepted(n.b, p);
    DatasPrefix(Log(p, n.b.accepted), Log(p, n.a.emitted));
    if Open(n.a.conn, p) && Open(n.b.conn, p) {
      OpenIsNotDead(n.b.conn, p);
      LogConcat(p, n.b.accepted, Stream(n.a, n.ab));
      DatasConcat(Log(p, n.b.accepted), Log(p, Stream(n.a, n.ab)));
    }
  }

  /** On every channel, in every reachable state, the data one end has received is a prefix of the data the other has sent; while the
      channel is open at both ends nothing is missing but what is under way. */
  lemma DataInOrder(n: Net, p: Path)
    requires Reachable(n)
    ensures ReceivedBy(n.b, p) <= SentBy(n.a, p)
    ensures ReceivedBy(n.a, p) <= SentBy(n.b, p)
    ensures Open(n.a.conn, p) && Open(n.b.conn, p) ==> ReceivedBy(n.b, p) + Underway(n.a, n.ab, p) == SentBy(n.a, p)
    ensures Open(n.a.conn, p) && Open(n.b.conn, p) ==> ReceivedBy(n.a, p) + Underway(n.b, n.ba, p) == SentBy(n.b, p)
  {
    ReachableInv(n);
    DeliveryOneWay(n, p);
    SwapInv(n);
    DeliveryOneWay(Swap(n), p);
  }

  /** A packet at the head of a link finds its channel open, unless the receiving end has closed that channel or one above it. */
  lemma NoFrameTooEarly(n: Net)
    requires Reachable(n)
    ensures n.ab != [] && !Dead(n.b.conn, n.ab[0].path) ==> Open(n.b.conn, n.ab[0].path)
    ensures n.ba != [] && !Dead(n.a.conn, n.ba[0].path) ==> Open(n.a.conn, n.ba[0].path)
  {
    ReachableInv(n);
    if n.ab != [] { HeadKnown(n.a, n.ab, n.b); }
    if n.ba != [] { HeadKnown(n.b, n.ba, n.a); }
  }

  lemma HeadKnown(src: End, link: seq<Msg>, dst: End)
    requires Direction(src, link, dst) && TreeShape(dst.conn) && link != []
    ensures Open(dst.conn, link[0].path) || Dead(dst.conn, link[0].path)
  {
    assert Stream(src, link) == [link[0]] + Stream(src, link[1..]);
    HeadPathMet(dst.conn, link[0], Stream(src, link[1..]));
  }

  // ---- Flow control ----

  predicate NoFlowUnderway(src: End, link: seq<Msg>, p: Path) {
    forall m :: m in Stream(src, link) && m.path == p ==> !IsFlow(m.body)
  }

  lemma GateOneWay(n: Net, p: Path)
    requires Inv(n) && Open(n.a.conn, p) && Open(n.b.conn, p) && NoFlowUnderway(n.b, n.ba, p)
    ensures n.a.conn.nodes[p].goThrough == Gate(Log(p, n.b.emitted))
  {
    OpenIsNotDead(n.a.conn, p);
    assert Carried(n.b, n.ba, n.a, p);
    var l := Log(p, Stream(n.b, n.ba));
    LogConcat(p, n.a.accepted, Stream(n.b, n.ba));
    forall b | b in l ensures !IsFlow(b) {
      InLog(p, b, Stream(n.b, n.ba));
    }
    GateStays(Log(p, n.a.accepted), l);
  }

  /** The sender's gate on a channel open at both ends, once the receiver's flow commands have arrived: it is shut only while the
      receiver's queue is full, and exactly then if the capacity was never lowered. An emptied receiver leaves no sender blocked. */
  lemma FlowControl(n: Net, p: Path)
    requires Reachable(n) && Open(n.a.conn, p) && Open(n.b.conn, p) && NoFlowUnderway(n.b, n.ba, p)
    ensures var x, y := n.a.conn.nodes[p], n.b.conn.nodes[p];
      && (|y.received| < y.capacity ==> x.goThrough)
      && (p !in n.b.lowered ==> (x.goThrough <==> |y.received| < y.capacity))
      && (y.received == [] ==> x.goThrough)
  {
    ReachableInv(n);
    GateOneWay(n, p);
    assert FlowOf(n.b.conn.nodes[p], Log(p, n.b.emitted), p in n.b.lowered);
  }

  /** The flow commands of one channel alternate, and the last one is SLOW_DOWN exactly while the receiving queue is full. */
  lemma FlowCommandsAlternate(n: Net, p: Path)
    requires Reachable(n) && Open(n.a.conn, p) && p !in n.a.lowered
    ensures Alternating(Log(p, n.a.emitted))
    ensures !Gate(Log(p, n.a.emitted)) <==> |n.a.conn.nodes[p].received| >= n.a.conn.nodes[p].capacity
  {
    ReachableInv(n);
    assert FlowOf(n.a.conn.nodes[p], Log(p, n.a.emitted), p in n.a.lowered);
  }

  /** The application takes everything that is queued on p. */
  function DrainAt(e: End, p: Path): End
    requires p in e.conn.nodes
    decreases |e.conn.nodes[p].received|
  {
    if HasPacket(e.conn, p) then DrainAt(TakeAt(e, p), p) else e
  }

  lemma {:induction false} DrainGate(e: End, p: Path)
    requires Open(e.conn, p) && 1 <= e.conn.nodes[p].capacity
    ensures Gate(Log(p, DrainAt(e, p).emitted)) <==>
            Gate(Log(p, e.emitted)) || e.conn.nodes[p].capacity <= |e.conn.nodes[p].received|
    decreases |e.conn.nodes[p].received|
  {
    if HasPacket(e.conn, p) {
      TakeShape(e, p);
      DrainGate(TakeAt(e, p), p);
      LogSnoc(p, e.emitted, Msg(p, GoThrough));
      BodySnoc(Log(p, e.emitted), GoThrough);
      assert e.emitted + [] == e.emitted;
    }
  }

  function RaiseAt(e: End, p: Path, capacity: nat): End
    requires p in e.conn.nodes
  {
    e.(conn := e.conn.(nodes := e.conn.nodes[p := e.conn.nodes[p].(capacity := capacity)]))
  }

  /** Raising the capacity while packets are queued: a receiver that then empties its queue has reopened the sender's gate unless the
      queue was full before the change and is no longer full after it. */
  lemma RaisingCapacity(n: Net, p: Path, capacity: nat)
    requires Reachable(n) && Open(n.b.conn, p) && p !in n.b.lowered && n.b.conn.nodes[p].capacity <= capacity
    ensures var nd := n.b.conn.nodes[p];
      Gate(Log(p, DrainAt(RaiseAt(n.b, p, capacity), p).emitted)) <==> !(nd.capacity <= |nd.received| < capacity)
  {
    ReachableInv(n);
    assert FlowOf(n.b.conn.nodes[p], Log(p, n.b.emitted), p in n.b.lowered);
    DrainGate(RaiseAt(n.b, p, capacity), p);
  }

  function Filling(): Msg { Msg(Root, Data([])) }

  /** Two new ends with queues of capacity 1, after k of three steps: one end sends a packet, it goes on the wire, and it arrives. */
  function FillingNet(k: nat): Net
    requires k <= 3
  {
    var a, b := NewEnd(true, 1, 8), NewEnd(false, 1, 8);
    if k == 0 then Net(a, [], b, [])
    else if k == 1 then Net(Emit(a, Filling()), [], b, [])
    else if k == 2 then Net(a.(emitted := [Filling()]), [Filling()], b, [])
    else Net(a.(emitted := [Filling()]), [], HandleAt(b, Filling()), [])
  }

  function FillingEvent(k: nat): Event
    requires k < 3
  {
    if k == 0 then Event(true, Send(Root, [], true)) else if k == 1 then Event(true, TransmitOne) else Event(false, DeliverOne)
  }

  lemma FillingStep(k: nat)
    requires k < 3
    ensures Enabled(FillingNet(k), FillingEvent(k)) && FillingNet(k + 1) == Apply(FillingNet(k), FillingEvent(k))
  {
    if k == 2 { assert WireSize(Filling()) <= 8; }
  }

  lemma FillingReachable()
    ensures Reachable(FillingNet(3))
  {
    var states, events := [FillingNet(0), FillingNet(1), FillingNet(2), FillingNet(3)], [FillingEvent(0), FillingEvent(1), FillingEvent(2)];
    forall i | 0 <= i < 3 ensures Enabled(states[i], events[i]) && states[i + 1] == Apply(states[i], events[i]) {
      FillingStep(i);
    }
    assert Run(states, events);
  }

  lemma FilledEnd()
    ensures var b := FillingNet(3).b;
      Open(b.conn, Root) && Root !in b.lowered && b.conn.nodes[Root].capacity == 1 && |b.conn.nodes[Root].received| == 1
  {
  }

  /** The bad case occurs: one packet fills a queue of capacity 1, the capacity becomes 2, the queue is emptied, and the gate stays shut. */
  lemma RaisingCapacityStrands() returns (n: Net)
    ensures Reachable(n) && Open(n.b.conn, Root) && Root !in n.b.lowered && n.b.conn.nodes[Root].capacity == 1
    ensures var e := DrainAt(RaiseAt(n.b, Root, 2), Root);
      !HasPacket(e.conn, Root) && !Gate(Log(Root, e.emitted))
  {
    FillingReachable();
    FilledEnd();
    n := FillingNet(3);
    RaisingCapacity(n, Root, 2);
    DrainedAt(RaiseAt(n.b, Root, 2), Root);
  }

  lemma {:induction false} DrainedAt(e: End, p: Path)
    requires p in e.conn.nodes
    ensures !HasPacket(DrainAt(e, p).conn, p)
    decreases |e.conn.nodes[p].received|
  {
    if HasPacket(e.conn, p) { DrainedAt(TakeAt(e, p), p); }
  }

  // ---- DESTROY ----

  /** Each end sends at most one DESTROY and at most one MAKE per number, and a channel it sent DESTROY for is closed. */
  lemma DestroyOnce(n: Net, p: Path, k: nat)
    requires Reachable(n)
    ensures multiset(Log(p, n.a.emitted))[DestroyChannel(k)] <= 1 && multiset(Log(p, n.b.emitted))[DestroyChannel(k)] <= 1
    ensures multiset(Log(p, n.a.emitted))[MakeChannel(k)] <= 1 && multiset(Log(p, n.b.emitted))[MakeChannel(k)] <= 1
    ensures DestroyChannel(k) in Log(p, n.a.emitted) ==> !Open(n.a.conn, Sub(p, k))
    ensures DestroyChannel(k) in Log(p, n.b.emitted) ==> !Open(n.b.conn, Sub(p, k))
  {
    ReachableInv(n);
    OnceAt(n.a, p, k);
    OnceAt(n.b, p, k);
  }

  lemma OnceAt(e: End, p: Path, k: nat)
    requires Family(e)
    ensures multiset(Log(p, e.emitted))[DestroyChannel(k)] <= 1 && multiset(Log(p, e.emitted))[MakeChannel(k)] <= 1
    ensures DestroyChannel(k) in Log(p, e.emitted) ==> !Open(e.conn, Sub(p, k))
  {
    assert DestroyOf(e, p, k) && NumberOf(e, p, k);
    if p !in e.conn.nodes { assert Log(p, e.emitted) == []; }
  }

  /** Handling a DESTROY sends nothing, in particular no DESTROY back. */
  lemma DestroyIsNotAnswered(e: End, p: Path, k: nat)
    requires Open(e.conn, p)
    ensures HandleAt(e, Msg(p, DestroyChannel(k))).emitted == e.emitted
    ensures forall m :: m in HandleAt(e, Msg(p, DestroyChannel(k))).conn.queue ==> m in e.conn.queue
  {
    PurgeSelects(e.conn.queue, Sub(p, k));
  }

  /** After an end's DESTROY of a channel no packet of that channel or of one below it is queued any more. */
  ghost predicate SilentAfterDestroy(s: seq<Msg>) {
    forall i, j :: 0 <= i < j < |s| && s[i].body.DestroyChannel? ==> !Under(s[j].path, Sub(s[i].path, s[i].body.number))
  }

  lemma SilentSnoc(e: End, m: Msg)
    requires Local(e) && SilentAfterDestroy(e.emitted) && Open(e.conn, m.path)
    ensures SilentAfterDestroy(e.emitted + [m])
  {
    var s := e.emitted + [m];
    forall i, j | 0 <= i < j < |s| && s[i].body.DestroyChannel?
      ensures !Under(s[j].path, Sub(s[i].path, s[i].body.number))
    {
      if j == |e.emitted| {
        var p, k := s[i].path, s[i].body.number;
        assert s[i] == Msg(p, DestroyChannel(k)) && s[i] in e.emitted;
        InLog(p, DestroyChannel(k), e.emitted);
        assert DestroyOf(e, p, k);
        if Under(m.path, Sub(p, k)) { OpenAbove(e.conn, m.path, Sub(p, k)); }
      }
    }
  }

  lemma StepEmits(n: Net, act: Action) returns (ms: seq<Msg>)
    requires OpenShape(n.a.conn) && EnabledAtA(n, act)
    ensures StepAtA(n, act).a.emitted == n.a.emitted + ms && |ms| <= 1 && (ms != [] ==> Open(n.a.conn, ms[0].path))
    ensures StepAtA(n, act).b == n.b
  {
    match act
    case MakeSub(p) => ms := [Msg(p, MakeChannel(n.a.conn.nodes[p].next))];
    case CloseSub(q) =>
      assert q == Sub(q.parent, q.number);
      ms := [DestroyOfPath(q)];
    case Send(p, d, _) => ms := [Msg(p, Data(d))];
    case SendKeepalive => ms := [Msg(Root, Keepalive)];
    case Recv(p) =>
      TakeShape(n.a, p);
      ms := TakeEmits(n.a, p);
    case DeliverOne => ms := ArriveEmits(n.a, n.ba[0]);
    case _ => ms := [];
  }

  lemma ArriveEmits(e: End, m: Msg) returns (ms: seq<Msg>)
    ensures Arrive(e, m).emitted == e.emitted + ms && |ms| <= 1 && (ms != [] ==> Open(e.conn, ms[0].path))
  {
    ms := if WireSize(m) <= e.conn.maxPayload && Open(e.conn, m.path) then HandleEmits(e, m) else [];
    assert e.emitted + [] == e.emitted;
  }

  lemma SilentStep(n: Net, act: Action)
    requires Inv(n) && EnabledAtA(n, act) && SilentAfterDestroy(n.a.emitted) && SilentAfterDestroy(n.b.emitted)
    ensures SilentAfterDestroy(StepAtA(n, act).a.emitted) && SilentAfterDestroy(StepAtA(n, act).b.emitted)
  {
    var ms := StepEmits(n, act);
    if ms != [] {
      assert ms == [ms[0]];
      SilentSnoc(n.a, ms[0]);
    } else {
      assert n.a.emitted + ms == n.a.emitted;
    }
  }

  lemma {:induction false} SilentRun(states: seq<Net>, events: seq<Event>, i: nat)
    requires Run(states, events) && i < |states|
    ensures SilentAfterDestroy(states[i].a.emitted) && SilentAfterDestroy(states[i].b.emitted)
  {
    if i > 0 {
      SilentRun(states, events, i - 1);
      RunKeepsInv(states, events, i - 1);
      var n, ev := states[i - 1], events[i - 1];
      assert states[i - 1 + 1] == Apply(n, ev);
      if ev.atA {
        SilentStep(n, ev.action);
      } else {
        SwapInv(n);
        SilentStep(Swap(n), ev.action);
      }
    }
  }

  /** Closing a channel ends everything at or below it; exactly its own packets leave the queue, one DESTROY joins it. */
  lemma CloseCascade(c: Conn, q: Path, reason: ChannelError, p: Path)
    requires WellFormed(c) && q.Sub? && Open(c, q) && reason != NoError
    ensures var c1 := Close(c, q, reason);
      && (Under(p, q) && p in c.nodes ==> !Open(c1, p) && c1.nodes[p].channels == {})
      && (!Under(p, q) && p != q.parent && p in c.nodes ==> c1.nodes[p] == c.nodes[p])
      && Log(p, c1.queue) == (if Under(p, q) then []
                              else if p == q.parent then Log(p, c.queue) + [DestroyChannel(q.number)] else Log(p, c.queue))
  {
    ParentAbove(q);
    assert q == Sub(q.parent, q.number);
    CloseCascadeNode(c, q, reason, p);
    CloseCascadeQueue(c, q, reason, p);
  }

  lemma ClosedHasNoTable(c: Conn, p: Path)
    requires Tables(c) && p in c.nodes && !Open(c, p)
    ensures c.nodes[p].channels == {}
  {
    assert forall k :: k !in c.nodes[p].channels;
  }

  lemma CloseCascadeNode(c: Conn, q: Path, reason: ChannelError, p: Path)
    requires Tables(c) && q.Sub? && q.parent in c.nodes && Open(c, q) && reason != NoError && !Under(q.parent, q)
    ensures var c1 := Close(c, q, reason);
      && (Under(p, q) && p in c.nodes ==> !Open(c1, p) && c1.nodes[p].channels == {})
      && (!Under(p, q) && p != q.parent && p in c.nodes ==> c1.nodes[p] == c.nodes[p])
  {
    if p in c.nodes && !Open(c, p) { ClosedHasNoTable(c, p); }
  }

  lemma CloseCascadeQueue(c: Conn, q: Path, reason: ChannelError, p: Path)
    requires q.Sub? && q.parent in c.nodes && Open(c, q) && !Under(q.parent, q)
    ensures Log(p, Close(c, q, reason).queue) ==
              (if Under(p, q) then []
               else if p == q.parent then Log(p, c.queue) + [DestroyChannel(q.number)] else Log(p, c.queue))
  {
    var m := Msg(q.parent, DestroyChannel(q.number));
    LogPurge(p, c.queue + [m], q);
    LogSnoc(p, c.queue, m);
  }
}
