/** Two connection ends joined by two FIFO links, and the invariant of every run. */
module Protocol {
  import opened Wire
  import opened ChannelTree
  import opened TreeInvariant
  import opened ChannelLog
  import opened EndHistory
  import opened EndChange
  import opened EndClose
  import opened Transport

  /** `ab` carries packets from a to b, `ba` the other way. */
  datatype Net = Net(a: End, ab: seq<Msg>, b: End, ba: seq<Msg>)

  datatype Action =
    | MakeSub(path: Path)
    | CloseSub(path: Path)
    | Send(path: Path, data: Bytes, async: bool)
    | SendKeepalive
    | Recv(path: Path)
    | TakeSub(path: Path, number: nat)
    | LowerCapacity(path: Path, capacity: nat)
    | TransmitOne
    | DeliverOne
    | Shutdown(reason: ChannelError)

  datatype Event = Event(atA: bool, action: Action)

  function Swap(n: Net): Net { Net(n.b, n.ba, n.a, n.ab) }

  /** Both ends of a channel are opposite poles, and their number ranges have not met. */
  ghost predicate PolesOf(a: End, b: End, p: Path) {
    p in a.conn.nodes && p in b.conn.nodes ==>
      var x, y := a.conn.nodes[p], b.conn.nodes[p];
      x.positive != y.positive && if x.positive then x.next <= y.next + 1 else y.next <= x.next + 1
  }

  ghost predicate Poles(a: End, b: End) {
    forall p :: PolesOf(a, b, p)
  }

  ghost predicate Inv(n: Net) {
    && Local(n.a) && Local(n.b)
    && Direction(n.a, n.ab, n.b) && Direction(n.b, n.ba, n.a)
    && Poles(n.a, n.b)
  }

  lemma SwapInv(n: Net)
    requires Inv(n)
    ensures Inv(Swap(n))
  {
    forall p ensures PolesOf(n.b, n.a, p) {
      assert PolesOf(n.a, n.b, p);
    }
  }

  /** A make that leaves the total of channels made below p, by both ends together, at 2^32 - 2 or less. */
  predicate RoomFor(a: End, b: End, p: Path) {
    && Open(a.conn, p)
    && var x := a.conn.nodes[p];
    && FIRST_POSITIVE <= x.next <= FIRST_NEGATIVE
    && (p in b.conn.nodes ==> var y := b.conn.nodes[p]; if x.positive then x.next <= y.next else y.next <= x.next)
  }

  predicate EnabledAtA(n: Net, act: Action) {
    match act
    case MakeSub(p) => RoomFor(n.a, n.b, p)
    case CloseSub(q) => MayClose(n.a.conn, q)
    case Send(p, d, async) =>
      Open(n.a.conn, p) && |d| <= MaxPacketSize(n.a.conn, p) && (async || n.a.conn.nodes[p].goThrough)
    case SendKeepalive => Open(n.a.conn, Root)
    case Recv(p) => HasPacket(n.a.conn, p)
    case TakeSub(p, _) => Open(n.a.conn, p)
    case LowerCapacity(p, c) => p in n.a.conn.nodes && 1 <= c <= n.a.conn.nodes[p].capacity
    case TransmitOne => Open(n.a.conn, Root) && n.a.conn.queue != []
    case DeliverOne => Open(n.a.conn, Root) && n.ba != []
    case Shutdown(reason) => reason != NoError
  }

  /** A frame over the limit closes the connection; every other frame is routed to its channel. */
  function Arrive(e: End, m: Msg): End {
    if WireSize(m) > e.conn.maxPayload then CloseAll(e, PacketTooLarge) else HandleAt(e, m)
  }

  function StepAtA(n: Net, act: Action): Net
    requires EnabledAtA(n, act)
  {
    match act
    case MakeSub(p) => n.(a := MakeChannelAt(n.a, p))
    case CloseSub(q) => n.(a := CloseAt(n.a, q))
    case Send(p, d, _) => n.(a := Emit(n.a, Msg(p, Data(d))))
    case SendKeepalive => n.(a := Emit(n.a, Msg(Root, Keepalive)))
    case Recv(p) => n.(a := TakeAt(n.a, p))
    case TakeSub(p, k) => n.(a := TakeChannelAt(n.a, p, k))
    case LowerCapacity(p, c) => n.(a := LowerAt(n.a, p, c))
    case TransmitOne =>
      n.(a := n.a.(conn := n.a.conn.(queue := n.a.conn.queue[1..])), ab := n.ab + [n.a.conn.queue[0]])
    case DeliverOne => n.(a := Arrive(n.a, n.ba[0]), ba := n.ba[1..])
    case Shutdown(reason) => n.(a := CloseAll(n.a, reason))
  }

  // ---- Numbers never meet ----

  lemma AcceptedWasEmitted(src: End, link: seq<Msg>, dst: End, p: Path, b: Body)
    requires Direction(src, link, dst) && b in Log(p, dst.accepted)
    ensures b in Log(p, src.emitted)
  {
    assert Carried(src, link, dst, p);
  }

  /** The number a is about to hand out is used neither by a nor by b. */
  lemma MakeIsFresh(n: Net, p: Path)
    requires Inv(n) && RoomFor(n.a, n.b, p)
    ensures Fresh(n.a.conn, p)
    ensures Sub(p, n.a.conn.nodes[p].next) !in n.b.conn.nodes
    ensures !Own(n.a.conn.nodes[p], n.a.conn.nodes[p].next)
  {
    var x := n.a.conn.nodes[p];
    var k: nat := x.next;
    assert KidOf(n.a, p, k) && NumberOf(n.a, p, k) && KidOf(n.b, p, k) && NumberOf(n.b, p, k);
    assert PolesOf(n.a, n.b, p);
    if MakeChannel(k) in Log(p, n.b.accepted) { AcceptedWasEmitted(n.a, n.ab, n.b, p, MakeChannel(k)); }
    if MakeChannel(k) in Log(p, n.a.accepted) { AcceptedWasEmitted(n.b, n.ba, n.a, p, MakeChannel(k)); }
    if p !in n.b.conn.nodes { assert Log(p, n.b.emitted) == []; }
  }

  // ---- The packet at the head of a link ----

  lemma HeadEmitted(src: End, link: seq<Msg>, dst: End)
    requires Direction(src, link, dst) && link != [] && OpenShape(dst.conn) && Open(dst.conn, link[0].path)
    ensures var p := link[0].path; Log(p, dst.accepted) + [link[0].body] <= Log(p, src.emitted)
  {
    var m := link[0];
    var p := m.path;
    OpenIsNotDead(dst.conn, p);
    assert Carried(src, link, dst, p);
    var rest := Stream(src, link[1..]);
    assert Pipe(src, link, dst) == (dst.accepted + [m]) + rest;
    LogSnoc(p, dst.accepted, m);
    LogConcat(p, dst.accepted + [m], rest);
  }

  lemma TwiceInPrefix(l: seq<Body>, b: Body, k: seq<Body>)
    requires l + [b] <= k && multiset(k)[b] <= 1
    ensures b !in l && b in k
  {
    assert k == (l + [b]) + k[|l| + 1..];
    assert multiset(k) == multiset(l) + multiset{b} + multiset(k[|l| + 1..]);
  }

  /** An arriving MAKE is for a number this end does not know, of the other pole, in range. */
  lemma MakeConforms(src: End, link: seq<Msg>, dst: End, p: Path, k: nat)
    requires Direction(src, link, dst) && Family(src) && Family(dst) && Poles(dst, src) && Numbers(src.conn)
    requires OpenShape(dst.conn) && link != [] && link[0] == Msg(p, MakeChannel(k)) && Open(dst.conn, p)
    ensures Sub(p, k) !in dst.conn.nodes && 2 <= k < U32_LIMIT
    ensures Sub(p, k) in src.conn.nodes && src.conn.nodes[Sub(p, k)].positive
  {
    HeadEmitted(src, link, dst);
    assert Log(p, src.emitted)[|Log(p, dst.accepted)|] == MakeChannel(k);
    assert NumberOf(src, p, k);
    TwiceInPrefix(Log(p, dst.accepted), MakeChannel(k), Log(p, src.emitted));
    assert KidOf(src, p, k) && KidOf(dst, p, k) && NumberOf(dst, p, k) && PolesOf(dst, src, p);
  }

  lemma DestroyConforms(src: End, link: seq<Msg>, dst: End, p: Path, k: nat)
    requires InOrder(dst.conn, Stream(src, link)) && OpenShape(dst.conn)
    requires link != [] && link[0] == Msg(p, DestroyChannel(k)) && Open(dst.conn, p)
    ensures Sub(p, k) in dst.conn.nodes
  {
    assert Stream(src, link) == [link[0]] + Stream(src, link[1..]);
    HeadMet(dst.conn, link[0], Stream(src, link[1..]));
    OpenIsNotDead(dst.conn, p);
  }

  // ---- Every step keeps the invariant ----

  /** Steps of a that leave poles and numbers of existing channels alone. */
  lemma PolesStay(a: End, a1: End, b: End)
    requires Poles(a, b) && a1.conn.nodes.Keys == a.conn.nodes.Keys
    requires forall p :: p in a.conn.nodes ==>
      a1.conn.nodes[p].positive == a.conn.nodes[p].positive && a1.conn.nodes[p].next == a.conn.nodes[p].next
    ensures Poles(a1, b)
  {
    forall p ensures PolesOf(a1, b, p) {
      assert PolesOf(a, b, p);
    }
  }

  lemma SendStep(n: Net, m: Msg)
    requires Inv(n) && Open(n.a.conn, m.path) && (m.body.Data? || m.body.Keepalive?)
    ensures Inv(n.(a := Emit(n.a, m)))
  {
    var a1 := Emit(n.a, m);
    EmitLocal(n.a, m);
    QuietDirections(n.a, a1, n.ab, n.b, n.ba, [m]);
    PolesStay(n.a, a1, n.b);
  }

  lemma MakePoles(a: End, b: End, p: Path)
    requires Poles(a, b) && RoomFor(a, b, p) && Fresh(a.conn, p) && Numbers(b.conn)
    requires Sub(p, a.conn.nodes[p].next) !in b.conn.nodes
    ensures Poles(MakeChannelAt(a, p), b)
  {
    var a1 := MakeChannelAt(a, p);
    MakeIsBirth(a, p);
    assert PolesOf(a, b, p);
    assert a1.conn.nodes[p].next == a.conn.nodes[p].next + Step(a.conn.nodes[p]);
    BirthPoles(a, a1, b, p, a.conn.nodes[p].next, true);
  }

  lemma MakeStep(n: Net, p: Path)
    requires Inv(n) && RoomFor(n.a, n.b, p)
    ensures Fresh(n.a.conn, p) && Inv(n.(a := MakeChannelAt(n.a, p)))
  {
    MakeIsFresh(n, p);
    MakeLocal(n.a, p);
    MakeDirections(n.a, p, n.ab, n.b, n.ba);
    MakePoles(n.a, n.b, p);
  }

  lemma MakeDirections(a: End, p: Path, ab: seq<Msg>, b: End, ba: seq<Msg>)
    requires Direction(a, ab, b) && Direction(b, ba, a) && Fresh(a.conn, p)
    ensures var a1 := MakeChannelAt(a, p); Direction(a1, ab, b) && Direction(b, ba, a1)
  {
    var a1 := MakeChannelAt(a, p);
    var k: nat := a.conn.nodes[p].next;
    var m := Msg(p, MakeChannel(k));
    MakeIsBirth(a, p);
    forall q ensures Open(a1.conn, q) <==> Open(a.conn, q) || q == Sub(p, k) {
      BirthAround(a, a1, p, k, true, q);
    }
    assert Announcing(a, ab, b, p);
    MakeQueue(a, p);
    assert m in Stream(a1, ab);
    SendPlain(a, a1, ab, b, [m]);
    ReceiverGrows(b, ba, a, a1);
  }

  lemma MakeQueue(a: End, p: Path)
    requires Fresh(a.conn, p)
    ensures MakeChannelAt(a, p).conn.queue == a.conn.queue + [Msg(p, MakeChannel(a.conn.nodes[p].next))]
  {
    ParentAbove(Sub(p, a.conn.nodes[p].next));
  }

  /** A new channel of a: b does not know it yet, or it is b's own. */
  lemma BirthPoles(a: End, a1: End, b: End, p: Path, k: nat, made: bool)
    requires Poles(a, b) && Birth(a, a1, p, k, made) && Numbers(b.conn)
    requires made ==> Sub(p, k) !in b.conn.nodes && (p in b.conn.nodes ==> PolesOf(a1, b, p))
    requires !made ==> Sub(p, k) in b.conn.nodes && b.conn.nodes[Sub(p, k)].positive && a1.conn.nodes[p].next == a.conn.nodes[p].next
    ensures Poles(a1, b)
  {
    forall q ensures PolesOf(a1, b, q) {
      assert PolesOf(a, b, q);
    }
  }

  lemma CloseStep(n: Net, q: Path)
    requires Inv(n) && MayClose(n.a.conn, q)
    ensures Inv(n.(a := CloseAt(n.a, q)))
  {
    var a1 := CloseAt(n.a, q);
    CloseLocal(n.a, q);
    CloseIsClosure(n.a, q);
    assert Announcing(n.a, n.ab, n.b, q);
    ClosureSends(n.a, a1, n.ab, n.b, q, true, false, [DestroyOfPath(q)]);
    ClosureGrows(n.a, a1, q, true, false);
    ReceiverGrows(n.b, n.ba, n.a, a1);
    ClosurePoles(n.a, a1, n.b, q, true, false);
  }

  lemma ClosurePoles(a: End, a1: End, b: End, q: Path, sent: bool, got: bool)
    requires Poles(a, b) && Closure(a, a1, q, sent, got)
    ensures Poles(a1, b)
  {
    PolesStay(a, a1, b);
  }

  lemma ClosureGrows(a: End, a1: End, q: Path, sent: bool, got: bool)
    requires Closure(a, a1, q, sent, got)
    ensures Grows(a.conn, a1.conn) && forall x :: Open(a1.conn, x) ==> Open(a.conn, x) && !Under(x, q)
  {
    forall x ensures Open(a1.conn, x) ==> Open(a.conn, x) && !Under(x, q) {
      ClosureAside(a, a1, q, sent, got, x);
    }
  }

  lemma ClosureSends(a: End, a1: End, ab: seq<Msg>, b: End, q: Path, sent: bool, got: bool, ms: seq<Msg>)
    requires Direction(a, ab, b) && LogsKnown(a)
    requires Closure(a, a1, q, sent, got) && q.Sub? && Open(a.conn, q.parent)
    requires ms == if sent then [DestroyOfPath(q)] else []
    requires a1.conn.queue == Purge(a.conn.queue + ms, q)
    requires sent ==> Ready(b.conn, Stream(a, ab), q)
    ensures Direction(a1, ab, b)
  {
    ClosureGrows(a, a1, q, sent, got);
    assert a.emitted + [] == a.emitted;
    forall x | Under(x, q) && x !in a1.conn.nodes ensures Log(x, a.emitted) == [] && Log(x, ms) == [] {
      LogOfOne(x, ms);
    }
    SendPurge(a, a1, ab, b, ms, q);
  }

  /** The sender's tree keeps its open channels, its queue and history grow by at most one packet of an open channel. */
  lemma QuietDirections(a: End, a1: End, ab: seq<Msg>, b: End, ba: seq<Msg>, ms: seq<Msg>)
    requires Direction(a, ab, b) && Direction(b, ba, a)
    requires |ms| <= 1 && (forall m :: m in ms ==> Open(a.conn, m.path) && !m.body.DestroyChannel?)
    requires a1.emitted == a.emitted + ms && a1.conn.queue == a.conn.queue + ms && a1.accepted == a.accepted
    requires a1.conn.nodes.Keys == a.conn.nodes.Keys
    requires forall q :: Open(a1.conn, q) <==> Open(a.conn, q)
    ensures Direction(a1, ab, b) && Direction(b, ba, a1)
  {
    forall m | m in ms ensures Ready(b.conn, Stream(a, ab), Subject(m)) {
      assert Announcing(a, ab, b, m.path);
    }
    SendPlain(a, a1, ab, b, ms);
    ReceiverGrows(b, ba, a, a1);
  }

  lemma TakeDirections(a: End, p: Path, ab: seq<Msg>, b: End, ba: seq<Msg>)
    requires Direction(a, ab, b) && Direction(b, ba, a) && HasPacket(a.conn, p)
    ensures var a1 := TakeAt(a, p); Direction(a1, ab, b) && Direction(b, ba, a1)
  {
    var a1 := TakeAt(a, p);
    TakeShape(a, p);
    assert a.conn.queue + [] == a.conn.queue;
    assert forall q :: Open(a1.conn, q) <==> Open(a.conn, q);
    QuietDirections(a, a1, ab, b, ba, TakeEmits(a, p));
  }

  lemma RecvStep(n: Net, p: Path)
    requires Inv(n) && HasPacket(n.a.conn, p)
    ensures Inv(n.(a := TakeAt(n.a, p)))
  {
    TakeLocal(n.a, p);
    TakeDirections(n.a, p, n.ab, n.b, n.ba);
    TakeQuiet(n.a, p);
    PolesStay(n.a, TakeAt(n.a, p), n.b);
  }

  lemma FieldDirections(a: End, a1: End, p: Path, ab: seq<Msg>, b: End, ba: seq<Msg>)
    requires Direction(a, ab, b) && Direction(b, ba, a) && FieldChange(a, a1, p)
    ensures Direction(a1, ab, b) && Direction(b, ba, a1)
  {
    assert a.emitted + [] == a.emitted && a.conn.queue + [] == a.conn.queue;
    assert forall q :: Open(a1.conn, q) <==> Open(a.conn, q);
    QuietDirections(a, a1, ab, b, ba, []);
  }

  lemma FieldStep(n: Net, a1: End, p: Path)
    requires Inv(n) && FieldChange(n.a, a1, p) && Local(a1)
    ensures Inv(n.(a := a1))
  {
    FieldDirections(n.a, a1, p, n.ab, n.b, n.ba);
    FieldChangeQuiet(n.a, a1, p);
    PolesStay(n.a, a1, n.b);
  }

  lemma TakeSubStep(n: Net, p: Path, k: nat)
    requires Inv(n) && Open(n.a.conn, p)
    ensures Inv(n.(a := TakeChannelAt(n.a, p, k)))
  {
    TakeChannelLocal(n.a, p, k);
    TakeChannelIsFieldChange(n.a, p, k);
    FieldStep(n, TakeChannelAt(n.a, p, k), p);
  }

  lemma LowerStep(n: Net, p: Path, c: nat)
    requires Inv(n) && p in n.a.conn.nodes && 1 <= c <= n.a.conn.nodes[p].capacity
    ensures Inv(n.(a := LowerAt(n.a, p, c)))
  {
    LowerLocal(n.a, p, c);
    LowerIsFieldChange(n.a, p, c);
    FieldStep(n, LowerAt(n.a, p, c), p);
  }

  lemma TransmitStep(n: Net)
    requires Inv(n) && n.a.conn.queue != []
    ensures Inv(n.(a := n.a.(conn := n.a.conn.(queue := n.a.conn.queue[1..])), ab := n.ab + [n.a.conn.queue[0]]))
  {
    var a1 := n.a.(conn := n.a.conn.(queue := n.a.conn.queue[1..]));
    TransmitLocal(n.a);
    Transmit(n.a, a1, n.ab, n.b);
    ReceiverGrows(n.b, n.ba, n.a, a1);
    PolesStay(n.a, a1, n.b);
  }

  lemma ShutdownStep(n: Net, reason: ChannelError)
    requires Inv(n) && reason != NoError
    ensures Inv(n.(a := CloseAll(n.a, reason)))
  {
    if Open(n.a.conn, Root) {
      var a1 := CloseAll(n.a, reason);
      CloseAllLocal(n.a, reason);
      CloseAllIsClosure(n.a, reason);
      CloseRootKeeps(n.a.conn, reason);
      SendNothing(n.a, a1, n.ab, n.b);
      ReceiverGrows(n.b, n.ba, n.a, a1);
      PolesStay(n.a, a1, n.b);
    }
  }

  // ---- Arrival ----

  lemma OversizeStep(n: Net)
    requires Inv(n) && n.ba != []
    ensures Inv(n.(a := CloseAll(n.a, PacketTooLarge), ba := n.ba[1..]))
  {
    var a1 := CloseAll(n.a, PacketTooLarge);
    ShutdownStep(n, PacketTooLarge);
    CloseRootKeeps(n.a.conn, PacketTooLarge);
    Pop(n.b, n.ba, a1, a1);
  }

  lemma DropStep(n: Net)
    requires Inv(n) && n.ba != [] && !Open(n.a.conn, n.ba[0].path)
    ensures Inv(n.(ba := n.ba[1..]))
  {
    Pop(n.b, n.ba, n.a, n.a);
  }

  lemma QuietArrival(n: Net)
    requires Inv(n) && n.ba != [] && Open(n.a.conn, n.ba[0].path) && QuietBody(n.ba[0].body)
    ensures Inv(n.(a := HandleAt(n.a, n.ba[0]), ba := n.ba[1..]))
  {
    var m := n.ba[0];
    var a1 := HandleAt(n.a, m);
    HandleQuietLocal(n.a, m);
    HandleShape(n.a, m);
    QuietArrivalDirections(n.a, a1, m, n.ab, n.b, n.ba);
    HandledPoles(n.a, a1, n.b, m);
  }

  lemma HandledPoles(a: End, a1: End, b: End, m: Msg)
    requires Poles(a, b) && Handled(a, a1, m)
    ensures Poles(a1, b)
  {
    PolesStay(a, a1, b);
  }

  lemma QuietArrivalDirections(a: End, a1: End, m: Msg, ab: seq<Msg>, b: End, ba: seq<Msg>)
    requires Direction(a, ab, b) && Direction(b, ba, a) && TreeShape(a.conn) && OpenShape(a.conn)
    requires Handled(a, a1, m) && ba != [] && ba[0] == m
    ensures Direction(a1, ab, b) && Direction(b, ba[1..], a1)
  {
    assert forall q :: Open(a1.conn, q) <==> Open(a.conn, q);
    forall k | k in HandleEmits(a, m) ensures Ready(b.conn, Stream(a, ab), Subject(k)) {
      assert Announcing(a, ab, b, m.path);
    }
    SendPlain(a, a1, ab, b, HandleEmits(a, m));
    Pop(b, ba, a, a1);
  }

  lemma MakeArrivalDirections(a: End, a1: End, p: Path, k: nat, ab: seq<Msg>, b: End, ba: seq<Msg>)
    requires Direction(a, ab, b) && Direction(b, ba, a) && TreeShape(a.conn) && OpenShape(a.conn)
    requires Birth(a, a1, p, k, false) && ba != [] && ba[0] == Msg(p, MakeChannel(k)) && a1.conn.queue == a.conn.queue
    requires Sub(p, k) in b.conn.nodes
    ensures Direction(a1, ab, b) && Direction(b, ba[1..], a1)
  {
    forall q ensures Open(a1.conn, q) <==> Open(a.conn, q) || q == Sub(p, k) {
      BirthAround(a, a1, p, k, false, q);
    }
    assert a.emitted + [] == a.emitted && a.conn.queue + [] == a.conn.queue;
    SendPlain(a, a1, ab, b, []);
    Pop(b, ba, a, a1);
  }

  lemma MakeArrivalBirth(a: End, a1: End, p: Path, k: nat, ab: seq<Msg>, b: End, ba: seq<Msg>)
    requires Direction(a, ab, b) && Direction(b, ba, a) && TreeShape(a.conn) && OpenShape(a.conn) && Poles(a, b)
    requires ba != [] && ba[0] == Msg(p, MakeChannel(k)) && Open(a.conn, p) && Sub(p, k) !in a.conn.nodes
    requires a1 == HandleAt(a, ba[0]) && Sub(p, k) in b.conn.nodes && b.conn.nodes[Sub(p, k)].positive && Numbers(b.conn)
    ensures Direction(a1, ab, b) && Direction(b, ba[1..], a1) && Poles(a1, b)
  {
    AnnounceIsBirth(a, p, k);
    AnnounceKeepsNext(a, p, k);
    MakeArrivalDirections(a, a1, p, k, ab, b, ba);
    BirthPoles(a, a1, b, p, k, false);
  }

  lemma AnnounceKeepsNext(e: End, p: Path, k: nat)
    requires Open(e.conn, p) && Sub(p, k) !in e.conn.nodes
    ensures var e1 := HandleAt(e, Msg(p, MakeChannel(k)));
      e1.conn.queue == e.conn.queue && p in e1.conn.nodes && e1.conn.nodes[p].next == e.conn.nodes[p].next
  {
  }

  lemma MakeArrival(n: Net, p: Path, k: nat)
    requires Inv(n) && n.ba != [] && n.ba[0] == Msg(p, MakeChannel(k)) && Open(n.a.conn, p)
    ensures Inv(n.(a := HandleAt(n.a, n.ba[0]), ba := n.ba[1..]))
  {
    var a1 := HandleAt(n.a, n.ba[0]);
    MakeConforms(n.b, n.ba, n.a, p, k);
    AnnounceLocal(n.a, p, k);
    MakeArrivalBirth(n.a, a1, p, k, n.ab, n.b, n.ba);
  }

  lemma LateArrivalDirections(a: End, a1: End, p: Path, k: nat, ab: seq<Msg>, b: End, ba: seq<Msg>)
    requires Direction(a, ab, b) && Direction(b, ba, a) && TreeShape(a.conn) && OpenShape(a.conn) && Open(a.conn, p)
    requires LateDestroy(a, a1, p, k) && ba != [] && ba[0] == Msg(p, DestroyChannel(k))
    ensures Direction(a1, ab, b) && Direction(b, ba[1..], a1)
  {
    assert a.emitted + [] == a.emitted && a.conn.queue + [] == a.conn.queue;
    SendPlain(a, a1, ab, b, []);
    Pop(b, ba, a, a1);
  }

  lemma DestroyArrivalDirections(a: End, a1: End, p: Path, k: nat, ab: seq<Msg>, b: End, ba: seq<Msg>)
    requires Direction(a, ab, b) && Direction(b, ba, a) && TreeShape(a.conn) && OpenShape(a.conn) && LogsKnown(a)
    requires Open(a.conn, p) && ba != [] && ba[0] == Msg(p, DestroyChannel(k))
    requires Closure(a, a1, Sub(p, k), false, true) && a1.conn.queue == Purge(a.conn.queue, Sub(p, k))
    ensures Direction(a1, ab, b) && Direction(b, ba[1..], a1)
  {
    assert a.conn.queue + [] == a.conn.queue;
    ClosureSends(a, a1, ab, b, Sub(p, k), false, true, []);
    ClosureGrows(a, a1, Sub(p, k), false, true);
    Pop(b, ba, a, a1);
  }

  lemma DestroyQueue(e: End, p: Path, k: nat)
    requires Open(e.conn, p) && k in e.conn.nodes[p].channels
    ensures HandleAt(e, Msg(p, DestroyChannel(k))).conn.queue == Purge(e.conn.queue, Sub(p, k))
  {
  }

  lemma FirstDestroyArrival(n: Net, a1: End, p: Path, k: nat)
    requires Inv(n) && n.ba != [] && n.ba[0] == Msg(p, DestroyChannel(k)) && Open(n.a.conn, p)
    requires k in n.a.conn.nodes[p].channels && Sub(p, k) in n.a.conn.nodes && a1 == HandleAt(n.a, n.ba[0]) && Local(a1)
    ensures Inv(n.(a := a1, ba := n.ba[1..]))
  {
    DestroyIsClosure(n.a, p, k);
    DestroyQueue(n.a, p, k);
    DestroyArrivalDirections(n.a, a1, p, k, n.ab, n.b, n.ba);
    ClosurePoles(n.a, a1, n.b, Sub(p, k), false, true);
  }

  lemma LateDestroyArrival(n: Net, a1: End, p: Path, k: nat)
    requires Inv(n) && n.ba != [] && n.ba[0] == Msg(p, DestroyChannel(k)) && Open(n.a.conn, p)
    requires LateDestroy(n.a, a1, p, k) && Local(a1)
    ensures Inv(n.(a := a1, ba := n.ba[1..]))
  {
    LateArrivalDirections(n.a, a1, p, k, n.ab, n.b, n.ba);
    PolesStay(n.a, a1, n.b);
  }

  lemma LateIsLate(e: End, p: Path, k: nat)
    requires OpenShape(e.conn) && Open(e.conn, p) && Sub(p, k) in e.conn.nodes && k !in e.conn.nodes[p].channels
    ensures LateDestroy(e, HandleAt(e, Msg(p, DestroyChannel(k))), p, k)
  {
    assert !Open(e.conn, Sub(p, k));
  }

  lemma DestroyArrival(n: Net, p: Path, k: nat)
    requires Inv(n) && n.ba != [] && n.ba[0] == Msg(p, DestroyChannel(k)) && Open(n.a.conn, p)
    ensures Inv(n.(a := HandleAt(n.a, n.ba[0]), ba := n.ba[1..]))
  {
    DestroyConforms(n.b, n.ba, n.a, p, k);
    DestroyLocal(n.a, p, k);
    if k in n.a.conn.nodes[p].channels {
      FirstDestroyArrival(n, HandleAt(n.a, n.ba[0]), p, k);
    } else {
      LateIsLate(n.a, p, k);
      LateDestroyArrival(n, HandleAt(n.a, n.ba[0]), p, k);
    }
  }

  lemma DeliverStep(n: Net)
    requires Inv(n) && n.ba != []
    ensures Inv(n.(a := Arrive(n.a, n.ba[0]), ba := n.ba[1..]))
  {
    var m := n.ba[0];
    if WireSize(m) > n.a.conn.maxPayload {
      OversizeStep(n);
    } else if !Open(n.a.conn, m.path) {
      DropStep(n);
    } else {
      match m.body
      case MakeChannel(k) => MakeArrival(n, m.path, k);
      case DestroyChannel(k) => DestroyArrival(n, m.path, k);
      case _ => QuietArrival(n);
    }
  }

  lemma StepAtAKeepsInv(n: Net, act: Action)
    requires Inv(n) && EnabledAtA(n, act)
    ensures Inv(StepAtA(n, act))
  {
    match act
    case MakeSub(p) => MakeStep(n, p);
    case CloseSub(q) => CloseStep(n, q);
    case Send(p, d, _) => SendStep(n, Msg(p, Data(d)));
    case SendKeepalive => SendStep(n, Msg(Root, Keepalive));
    case Recv(p) => RecvStep(n, p);
    case TakeSub(p, k) => TakeSubStep(n, p, k);
    case LowerCapacity(p, c) => LowerStep(n, p, c);
    case TransmitOne => TransmitStep(n);
    case DeliverOne => DeliverStep(n);
    case Shutdown(reason) => ShutdownStep(n, reason);
  }

  // ---- Runs ----

  predicate Enabled(n: Net, ev: Event) {
    EnabledAtA(if ev.atA then n else Swap(n), ev.action)
  }

  function Apply(n: Net, ev: Event): Net
    requires Enabled(n, ev)
  {
    if ev.atA then StepAtA(n, ev.action) else Swap(StepAtA(Swap(n), ev.action))
  }

  function NewEnd(positive: bool, capacity: nat, maxPayload: nat): End {
    End(Conn(map[Root := NewNode(positive, capacity)], [], maxPayload), [], [], [], {}, {})
  }

  predicate FreshEnd(e: End, positive: bool) {
    && Root in e.conn.nodes && 1 <= e.conn.nodes[Root].capacity
    && e == NewEnd(positive, e.conn.nodes[Root].capacity, e.conn.maxPayload)
  }

  /** Two socket channels of opposite poles, with any capacities and any frame limits, and nothing on the wire. */
  predicate Init(n: Net) {
    FreshEnd(n.a, true) && FreshEnd(n.b, false) && n.ab == [] && n.ba == []
  }

  /** A run: every state comes from the one before it by one enabled event of one end. */
  predicate Run(states: seq<Net>, events: seq<Event>) {
    && |states| == |events| + 1
    && Init(states[0])
    && (forall i :: 0 <= i < |events| ==> Enabled(states[i], events[i]) && states[i + 1] == Apply(states[i], events[i]))
  }

  lemma NewEndLocal(positive: bool, capacity: nat, maxPayload: nat)
    requires 1 <= capacity
    ensures Local(NewEnd(positive, capacity, maxPayload))
  {
    var e := NewEnd(positive, capacity, maxPayload);
    assert forall p, n :: KidOf(e, p, n) && NumberOf(e, p, n) && DestroyOf(e, p, n);
  }

  lemma InitInv(n: Net)
    requires Init(n)
    ensures Inv(n)
  {
    NewEndLocal(true, n.a.conn.nodes[Root].capacity, n.a.conn.maxPayload);
    NewEndLocal(false, n.b.conn.nodes[Root].capacity, n.b.conn.maxPayload);
    NewDirection(n.a, n.b);
    NewDirection(n.b, n.a);
    assert forall p :: PolesOf(n.a, n.b, p);
  }

  lemma NewDirection(src: End, dst: End)
    requires src.emitted == [] && dst.accepted == [] && src.conn.queue == []
    requires src.conn.nodes.Keys == {Root} && dst.conn.nodes.Keys == {Root}
    ensures Direction(src, [], dst)
  {
    assert forall p :: Carried(src, [], dst, p);
    assert forall q :: Announcing(src, [], dst, q);
  }

  /** Every state of every run satisfies the invariant. */
  lemma {:induction false} RunKeepsInv(states: seq<Net>, events: seq<Event>, i: nat)
    requires Run(states, events) && i < |states|
    ensures Inv(states[i])
  {
    if i == 0 {
      InitInv(states[0]);
    } else {
      RunKeepsInv(states, events, i - 1);
      var n, ev := states[i - 1], events[i - 1];
      assert states[i - 1 + 1] == Apply(n, ev);
      if ev.atA {
        StepAtAKeepsInv(n, ev.action);
      } else {
        SwapInv(n);
        StepAtAKeepsInv(Swap(n), ev.action);
        SwapInv(StepAtA(Swap(n), ev.action));
      }
    }
  }
}
