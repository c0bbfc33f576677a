/** One connection end with its history, and what the history says about its channels. */
module EndHistory {
  import opened Wire
  import opened ChannelTree
  import opened TreeInvariant
  import opened ChannelLog

  /** `emitted`: every packet ever put in the sending queue. `accepted`: every packet that arrived for an open channel.
      `taken`: every data packet recv_packet has returned. `lowered`: channels whose capacity was changed after creation.
      `claimed`: channels that take_channel has returned. */
  datatype End = End(conn: Conn, emitted: seq<Msg>, accepted: seq<Msg>, taken: seq<Msg>, lowered: set<Path>, claimed: set<Path>)

  // ---- Operations ----

  function Emit(e: End, m: Msg): End {
    if Open(e.conn, m.path) then e.(conn := Enqueue(e.conn, m), emitted := e.emitted + [m]) else e
  }

  function MakeChannelAt(e: End, p: Path): End
    requires Open(e.conn, p) && 0 <= e.conn.nodes[p].next
  {
    e.(conn := Make(e.conn, p), emitted := e.emitted + [Msg(p, MakeChannel(e.conn.nodes[p].next))])
  }

  predicate MayClose(c: Conn, q: Path) {
    q.Sub? && Open(c, q) && q.parent in c.nodes && q.number !in c.nodes[q.parent].pending
  }

  function CloseAt(e: End, q: Path): End
    requires MayClose(e.conn, q)
  {
    e.(conn := Close(e.conn, q, UserShutdown), emitted := e.emitted + [Msg(q.parent, DestroyChannel(q.number))])
  }

  function CloseAll(e: End, reason: ChannelError): End {
    e.(conn := CloseRoot(e.conn, reason))
  }

  predicate HasPacket(c: Conn, p: Path) {
    p in c.nodes && c.nodes[p].received != []
  }

  function TakeAt(e: End, p: Path): End
    requires HasPacket(e.conn, p)
  {
    var nd := e.conn.nodes[p];
    var e1 := e.(conn := TakePacket(e.conn, p), taken := e.taken + [Msg(p, Data(nd.received[0]))]);
    if Open(e.conn, p) && |nd.received| - 1 == nd.capacity - 1 then e1.(emitted := e.emitted + [Msg(p, GoThrough)]) else e1
  }

  function TakeChannelAt(e: End, p: Path, n: nat): End
    requires p in e.conn.nodes
  {
    e.(conn := TakeChannel(e.conn, p, n),
       claimed := if Open(e.conn, p) && n in e.conn.nodes[p].pending then e.claimed + {Sub(p, n)} else e.claimed)
  }

  function LowerAt(e: End, p: Path, capacity: nat): End
    requires p in e.conn.nodes
  {
    e.(conn := e.conn.(nodes := e.conn.nodes[p := e.conn.nodes[p].(capacity := capacity)]), lowered := e.lowered + {p})
  }

  /** A packet arriving: for a channel that is not there it is dropped. */
  function HandleAt(e: End, m: Msg): End {
    if !Open(e.conn, m.path) then e
    else
      var nd := e.conn.nodes[m.path];
      var e1 := e.(conn := Handle(e.conn, m), accepted := e.accepted + [m]);
      if m.body.Data? && |nd.received| == nd.capacity - 1 then e1.(emitted := e.emitted + [Msg(m.path, SlowDown)]) else e1
  }

  // ---- What the history says ----

  ghost predicate LogsKnown(e: End) {
    forall p :: p !in e.conn.nodes ==> Log(p, e.emitted) == [] && Log(p, e.accepted) == [] && Log(p, e.taken) == []
  }

  /** Nothing that arrived is lost, doubled or reordered before the application takes it. */
  ghost predicate DataKept(e: End) {
    forall p :: p in e.conn.nodes ==>
      Datas(Log(p, e.taken)) + e.conn.nodes[p].received == Datas(Log(p, e.accepted))
  }

  ghost predicate GateKept(e: End) {
    forall p :: p in e.conn.nodes ==>
      e.conn.nodes[p].goThrough == (!Open(e.conn, p) || Gate(Log(p, e.accepted)))
  }

  ghost predicate FlowOf(nd: Node, l: seq<Body>, lowered: bool) {
    && 1 <= nd.capacity
    && (!Gate(l) ==> |nd.received| >= nd.capacity)
    && (!lowered ==> Alternating(l) && (Gate(l) ==> |nd.received| < nd.capacity))
  }

  ghost predicate FlowKept(e: End) {
    forall p :: Open(e.conn, p) ==> FlowOf(e.conn.nodes[p], Log(p, e.emitted), p in e.lowered)
  }

  /** A channel exists because this end made it (it is then the positive pole) or because the other end announced it. */
  ghost predicate KidOf(e: End, p: Path, n: nat) {
    && ((Sub(p, n) in e.conn.nodes && e.conn.nodes[Sub(p, n)].positive) <==> MakeChannel(n) in Log(p, e.emitted))
    && ((Sub(p, n) in e.conn.nodes && !e.conn.nodes[Sub(p, n)].positive) <==> MakeChannel(n) in Log(p, e.accepted))
  }

  ghost predicate KidsKept(e: End) {
    forall p, n :: KidOf(e, p, n)
  }

  /** The numbers announced are the numbers handed out, each once. */
  ghost predicate NumberOf(e: End, p: Path, n: nat) {
    p in e.conn.nodes ==>
      && (MakeChannel(n) in Log(p, e.emitted) <==> Own(e.conn.nodes[p], n))
      && multiset(Log(p, e.emitted))[MakeChannel(n)] <= 1
  }

  ghost predicate NumbersKept(e: End) {
    forall p, n :: NumberOf(e, p, n)
  }

  /** A DESTROY goes out at most once for a number, only for a channel that is closed, and every closed channel whose
      parent is open has one in some direction. */
  ghost predicate DestroyOf(e: End, p: Path, n: nat) {
    && (DestroyChannel(n) in Log(p, e.emitted) || DestroyChannel(n) in Log(p, e.accepted) ==>
          Sub(p, n) in e.conn.nodes && !Open(e.conn, Sub(p, n)))
    && (Open(e.conn, p) && Sub(p, n) in e.conn.nodes && !Open(e.conn, Sub(p, n)) ==>
          DestroyChannel(n) in Log(p, e.emitted) || DestroyChannel(n) in Log(p, e.accepted))
    && multiset(Log(p, e.emitted))[DestroyChannel(n)] <= 1
  }

  ghost predicate DestroysKept(e: End) {
    forall p, n :: DestroyOf(e, p, n)
  }

  ghost predicate Family(e: End) {
    LogsKnown(e) && KidsKept(e) && NumbersKept(e) && DestroysKept(e)
  }

  ghost predicate Local(e: End) {
    WellFormed(e.conn) && Family(e) && DataKept(e) && GateKept(e) && FlowKept(e)
  }

  // ---- Steps that neither make nor close channels ----

  /** The histories grow by packets that are neither MAKE nor DESTROY; the tree keeps its shape. */
  ghost predicate Quiet(e: End, e1: End, es: seq<Msg>, ins: seq<Msg>, ts: seq<Msg>) {
    && e1.emitted == e.emitted + es && e1.accepted == e.accepted + ins && e1.taken == e.taken + ts
    && |es| <= 1 && |ins| <= 1 && |ts| <= 1
    && (forall m :: m in es || m in ins || m in ts ==>
          m.path in e.conn.nodes && !m.body.MakeChannel? && !m.body.DestroyChannel?)
    && e1.conn.nodes.Keys == e.conn.nodes.Keys
    && (forall p :: p in e.conn.nodes ==>
          var a, b := e.conn.nodes[p], e1.conn.nodes[p];
          a.error == b.error && a.positive == b.positive && a.next == b.next)
  }

  lemma QuietLog(p: Path, s: seq<Msg>, t: seq<Msg>)
    requires |t| <= 1
    requires forall m :: m in t ==> !m.body.MakeChannel? && !m.body.DestroyChannel?
    ensures Log(p, s + t) == if t != [] && t[0].path == p then Log(p, s) + [t[0].body] else Log(p, s)
    ensures forall n :: MakeChannel(n) in Log(p, s + t) <==> MakeChannel(n) in Log(p, s)
    ensures forall n :: DestroyChannel(n) in Log(p, s + t) <==> DestroyChannel(n) in Log(p, s)
    ensures forall n :: multiset(Log(p, s + t))[MakeChannel(n)] == multiset(Log(p, s))[MakeChannel(n)]
    ensures forall n :: multiset(Log(p, s + t))[DestroyChannel(n)] == multiset(Log(p, s))[DestroyChannel(n)]
  {
    if t == [] {
      assert s + t == s;
    } else {
      assert t == [t[0]];
      assert t[0] in t;
      LogSnoc(p, s, t[0]);
    }
  }

  lemma QuietKids(e: End, e1: End, es: seq<Msg>, ins: seq<Msg>, ts: seq<Msg>)
    requires KidsKept(e) && Quiet(e, e1, es, ins, ts)
    ensures KidsKept(e1)
  {
    forall p, n ensures KidOf(e1, p, n) {
      assert KidOf(e, p, n);
      QuietLog(p, e.emitted, es);
      QuietLog(p, e.accepted, ins);
    }
  }

  lemma QuietNumbers(e: End, e1: End, es: seq<Msg>, ins: seq<Msg>, ts: seq<Msg>)
    requires NumbersKept(e) && Quiet(e, e1, es, ins, ts)
    ensures NumbersKept(e1)
  {
    forall p, n ensures NumberOf(e1, p, n) {
      assert NumberOf(e, p, n);
      QuietLog(p, e.emitted, es);
    }
  }

  lemma QuietDestroys(e: End, e1: End, es: seq<Msg>, ins: seq<Msg>, ts: seq<Msg>)
    requires DestroysKept(e) && Quiet(e, e1, es, ins, ts)
    ensures DestroysKept(e1)
  {
    forall p, n ensures DestroyOf(e1, p, n) {
      assert DestroyOf(e, p, n);
      QuietLog(p, e.emitted, es);
      QuietLog(p, e.accepted, ins);
    }
  }

  lemma QuietFamily(e: End, e1: End, es: seq<Msg>, ins: seq<Msg>, ts: seq<Msg>)
    requires Family(e) && Quiet(e, e1, es, ins, ts)
    ensures Family(e1)
  {
    QuietKids(e, e1, es, ins, ts);
    QuietNumbers(e, e1, es, ins, ts);
    QuietDestroys(e, e1, es, ins, ts);
    forall p | p !in e1.conn.nodes
      ensures Log(p, e1.emitted) == [] && Log(p, e1.accepted) == [] && Log(p, e1.taken) == []
    {
      QuietLog(p, e.emitted, es);
      QuietLog(p, e.accepted, ins);
      QuietLog(p, e.taken, ts);
      assert forall m :: m in es || m in ins || m in ts ==> m.path != p;
      assert es != [] ==> es[0] in es;
      assert ins != [] ==> ins[0] in ins;
      assert ts != [] ==> ts[0] in ts;
    }
  }

  // The three predicates about single channels are shown one by one; the last lemma of each operation puts them together.

  lemma EmitChannels(e: End, m: Msg)
    requires DataKept(e) && GateKept(e) && FlowKept(e) && Open(e.conn, m.path) && !IsFlow(m.body)
    ensures DataKept(Emit(e, m)) && GateKept(Emit(e, m)) && FlowKept(Emit(e, m))
  {
    var e1 := Emit(e, m);
    forall p | Open(e1.conn, p) ensures FlowOf(e1.conn.nodes[p], Log(p, e1.emitted), p in e1.lowered) {
      assert Open(e.conn, p);
      LogSnoc(p, e.emitted, m);
      BodySnoc(Log(p, e.emitted), m.body);
    }
  }

  lemma EmitQuiet(e: End, m: Msg)
    requires Open(e.conn, m.path) && (m.body.Data? || m.body.Keepalive?)
    ensures Quiet(e, Emit(e, m), [m], [], [])
  {
  }

  /** Sending data (or a keepalive) on an open channel. */
  lemma EmitLocal(e: End, m: Msg)
    requires Local(e) && (m.body.Data? || m.body.Keepalive?) && Open(e.conn, m.path)
    ensures Local(Emit(e, m))
  {
    EnqueueKeeps(e.conn, m);
    EmitChannels(e, m);
    EmitQuiet(e, m);
    QuietFamily(e, Emit(e, m), [m], [], []);
  }

  /** Changing the pending queue, or lowering the capacity, of one channel. */
  ghost predicate FieldChange(e: End, e1: End, p: Path) {
    && p in e.conn.nodes
    && e1.emitted == e.emitted && e1.accepted == e.accepted && e1.taken == e.taken && e.lowered <= e1.lowered
    && e1.conn.queue == e.conn.queue && e1.conn.nodes.Keys == e.conn.nodes.Keys
    && (forall q :: q in e.conn.nodes && q != p ==> e1.conn.nodes[q] == e.conn.nodes[q])
    && (var a, b := e.conn.nodes[p], e1.conn.nodes[p];
        && b == a.(pending := b.pending, capacity := b.capacity) && 1 <= b.capacity <= a.capacity
        && (b.capacity == a.capacity || p in e1.lowered)
        && (Open(e.conn, p) ==> PendingShape(b)))
  }

  lemma FieldChangeFlow(e: End, e1: End, p: Path)
    requires FlowKept(e) && FieldChange(e, e1, p)
    ensures FlowKept(e1)
  {
    forall q | Open(e1.conn, q) ensures FlowOf(e1.conn.nodes[q], Log(q, e1.emitted), q in e1.lowered) {
      assert Open(e.conn, q);
    }
  }

  lemma FieldChangeChannels(e: End, e1: End, p: Path)
    requires DataKept(e) && GateKept(e) && FlowKept(e) && FieldChange(e, e1, p)
    ensures DataKept(e1) && GateKept(e1) && FlowKept(e1)
  {
    FieldChangeFlow(e, e1, p);
  }

  lemma FieldChangeQuiet(e: End, e1: End, p: Path)
    requires FieldChange(e, e1, p)
    ensures Quiet(e, e1, [], [], [])
  {
  }

  lemma FieldChangeLocal(e: End, e1: End, p: Path)
    requires Local(e) && FieldChange(e, e1, p)
    ensures Local(e1)
  {
    FieldsKeep(e.conn, e1.conn, p);
    FieldChangeChannels(e, e1, p);
    FieldChangeQuiet(e, e1, p);
    QuietFamily(e, e1, [], [], []);
  }

  lemma TakeChannelIsFieldChange(e: End, p: Path, n: nat)
    requires Pendings(e.conn) && FlowKept(e) && Open(e.conn, p)
    ensures FieldChange(e, TakeChannelAt(e, p, n), p)
  {
    var nd := e.conn.nodes[p];
    assert PendingShape(nd);
    WithoutKeeps(nd, n);
    assert FlowOf(nd, Log(p, e.emitted), p in e.lowered);
  }

  lemma TakeChannelLocal(e: End, p: Path, n: nat)
    requires Local(e) && Open(e.conn, p)
    ensures Local(TakeChannelAt(e, p, n))
  {
    TakeChannelIsFieldChange(e, p, n);
    FieldChangeLocal(e, TakeChannelAt(e, p, n), p);
  }

  lemma LowerIsFieldChange(e: End, p: Path, capacity: nat)
    requires Pendings(e.conn) && p in e.conn.nodes && 1 <= capacity <= e.conn.nodes[p].capacity
    ensures FieldChange(e, LowerAt(e, p, capacity), p)
  {
  }

  lemma LowerLocal(e: End, p: Path, capacity: nat)
    requires Local(e) && p in e.conn.nodes && 1 <= capacity <= e.conn.nodes[p].capacity
    ensures Local(LowerAt(e, p, capacity))
  {
    LowerIsFieldChange(e, p, capacity);
    FieldChangeLocal(e, LowerAt(e, p, capacity), p);
  }

  /** Moving the head of the sending queue to the wire changes nothing the history speaks about. */
  lemma TransmitLocal(e: End)
    requires Local(e) && e.conn.queue != []
    ensures Local(e.(conn := e.conn.(queue := e.conn.queue[1..])))
  {
    var e1 := e.(conn := e.conn.(queue := e.conn.queue[1..]));
    assert forall q :: Open(e1.conn, q) <==> Open(e.conn, q);
    assert e.emitted + [] == e.emitted && e.accepted + [] == e.accepted && e.taken + [] == e.taken;
    QueueTail(e.conn);
    QuietFamily(e, e1, [], [], []);
    forall q | Open(e1.conn, q) ensures FlowOf(e1.conn.nodes[q], Log(q, e1.emitted), q in e1.lowered) {
      assert Open(e.conn, q);
    }
  }

  /** What TakeAt does to the histories. */
  function TakeEmits(e: End, p: Path): seq<Msg>
    requires HasPacket(e.conn, p)
  {
    var nd := e.conn.nodes[p];
    if Open(e.conn, p) && |nd.received| == nd.capacity then [Msg(p, GoThrough)] else []
  }

  lemma TakeShape(e: End, p: Path)
    requires HasPacket(e.conn, p)
    ensures var e1 := TakeAt(e, p);
      && e1.emitted == e.emitted + TakeEmits(e, p) && e1.accepted == e.accepted && e1.lowered == e.lowered
      && e1.taken == e.taken + [Msg(p, Data(e.conn.nodes[p].received[0]))]
      && e1.conn.nodes == e.conn.nodes[p := e.conn.nodes[p].(received := e.conn.nodes[p].received[1..])]
      && e1.conn.queue == e.conn.queue + TakeEmits(e, p)
  {
  }

  lemma MoveHead<T>(a: seq<T>, s: seq<T>, c: seq<T>)
    requires s != [] && a + s == c
    ensures (a + [s[0]]) + s[1..] == c
  {
    assert s == [s[0]] + s[1..];
  }

  lemma TakeDataOf(e: End, e1: End, p: Path, d: Bytes, q: Path)
    requires q in e.conn.nodes && q in e1.conn.nodes
    requires e1.taken == e.taken + [Msg(p, Data(d))] && e1.accepted == e.accepted
    requires var a, b := e.conn.nodes[q].received, e1.conn.nodes[q].received;
      if q == p then a != [] && a[0] == d && b == a[1..] else b == a
    requires Datas(Log(q, e.taken)) + e.conn.nodes[q].received == Datas(Log(q, e.accepted))
    ensures Datas(Log(q, e1.taken)) + e1.conn.nodes[q].received == Datas(Log(q, e1.accepted))
  {
    LogSnoc(q, e.taken, Msg(p, Data(d)));
    if p == q {
      BodySnoc(Log(q, e.taken), Data(d));
      MoveHead(Datas(Log(q, e.taken)), e.conn.nodes[q].received, Datas(Log(q, e.accepted)));
    }
  }

  lemma TakeData(e: End, p: Path)
    requires DataKept(e) && GateKept(e) && HasPacket(e.conn, p)
    ensures DataKept(TakeAt(e, p)) && GateKept(TakeAt(e, p))
  {
    var e1 := TakeAt(e, p);
    TakeShape(e, p);
    forall q | q in e1.conn.nodes
      ensures Datas(Log(q, e1.taken)) + e1.conn.nodes[q].received == Datas(Log(q, e1.accepted))
    {
      TakeDataOf(e, e1, p, e.conn.nodes[p].received[0], q);
    }
  }

  lemma TakeFlow(e: End, p: Path)
    requires FlowKept(e) && HasPacket(e.conn, p)
    ensures FlowKept(TakeAt(e, p))
  {
    var e1 := TakeAt(e, p);
    TakeShape(e, p);
    forall q | Open(e1.conn, q) ensures FlowOf(e1.conn.nodes[q], Log(q, e1.emitted), q in e1.lowered) {
      assert Open(e.conn, q);
      assert FlowOf(e.conn.nodes[q], Log(q, e.emitted), q in e.lowered);
      QuietLog(q, e.emitted, TakeEmits(e, p));
      BodySnoc(Log(q, e.emitted), GoThrough);
    }
  }

  lemma TakeQuiet(e: End, p: Path)
    requires HasPacket(e.conn, p)
    ensures Quiet(e, TakeAt(e, p), TakeEmits(e, p), [], [Msg(p, Data(e.conn.nodes[p].received[0]))])
  {
    TakeShape(e, p);
    assert e.accepted + [] == e.accepted;
  }

  lemma TakeLocal(e: End, p: Path)
    requires Local(e) && HasPacket(e.conn, p)
    ensures Local(TakeAt(e, p))
  {
    TakePacketKeeps(e.conn, p);
    TakeData(e, p);
    TakeFlow(e, p);
    TakeQuiet(e, p);
    QuietFamily(e, TakeAt(e, p), TakeEmits(e, p), [], [Msg(p, Data(e.conn.nodes[p].received[0]))]);
  }
}
