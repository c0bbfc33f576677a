/** Arriving packets, new channels and closed channels keep what the history of an end says. */
module EndChange {
  import opened Wire
  import opened ChannelTree
  import opened TreeInvariant
  import opened ChannelLog
  import opened EndHistory

  // ---- Arriving data and flow commands ----

  predicate QuietBody(b: Body) { !b.MakeChannel? && !b.DestroyChannel? }

  function HandleEmits(e: End, m: Msg): seq<Msg>
    requires Open(e.conn, m.path)
  {
    var nd := e.conn.nodes[m.path];
    if m.body.Data? && |nd.received| == nd.capacity - 1 then [Msg(m.path, SlowDown)] else []
  }

  function HandledNode(nd: Node, b: Body): Node {
    match b
    case SlowDown => nd.(goThrough := false)
    case GoThrough => nd.(goThrough := true)
    case Data(d) => nd.(received := nd.received + [d])
    case _ => nd
  }

  /** e1 is e after a packet m that is neither MAKE nor DESTROY. */
  ghost predicate Handled(e: End, e1: End, m: Msg) {
    && Open(e.conn, m.path) && QuietBody(m.body)
    && e1.emitted == e.emitted + HandleEmits(e, m) && e1.accepted == e.accepted + [m]
    && e1.taken == e.taken && e1.lowered == e.lowered
    && e1.conn.nodes == e.conn.nodes[m.path := HandledNode(e.conn.nodes[m.path], m.body)]
    && e1.conn.queue == e.conn.queue + HandleEmits(e, m)
  }

  lemma HandleShape(e: End, m: Msg)
    requires Open(e.conn, m.path) && QuietBody(m.body)
    ensures Handled(e, HandleAt(e, m), m)
  {
  }

  lemma HandledQuiet(e: End, e1: End, m: Msg)
    requires Handled(e, e1, m)
    ensures Quiet(e, e1, HandleEmits(e, m), [m], [])
  {
    assert e.taken + [] == e.taken;
  }

  lemma AppendBoth<T>(a: seq<T>, s: seq<T>, c: seq<T>, x: T)
    requires a + s == c
    ensures a + (s + [x]) == c + [x]
  {
  }

  lemma HandledDataOf(e: End, e1: End, m: Msg, q: Path)
    requires Handled(e, e1, m) && q in e.conn.nodes
    requires Datas(Log(q, e.taken)) + e.conn.nodes[q].received == Datas(Log(q, e.accepted))
    ensures Datas(Log(q, e1.taken)) + e1.conn.nodes[q].received == Datas(Log(q, e1.accepted))
  {
    AcceptedDatas(q, e.accepted, m);
    if m.path == q && m.body.Data? {
      AppendBoth(Datas(Log(q, e.taken)), e.conn.nodes[q].received, Datas(Log(q, e.accepted)), m.body.payload);
    } else {
      assert e1.conn.nodes[q].received == e.conn.nodes[q].received;
    }
  }

  lemma AcceptedDatas(q: Path, accepted: seq<Msg>, m: Msg)
    ensures Datas(Log(q, accepted + [m])) ==
            if m.path == q && m.body.Data? then Datas(Log(q, accepted)) + [m.body.payload] else Datas(Log(q, accepted))
  {
    LogSnoc(q, accepted, m);
    BodySnoc(Log(q, accepted), m.body);
  }

  lemma HandledGateOf(e: End, e1: End, m: Msg, q: Path)
    requires Handled(e, e1, m) && q in e.conn.nodes
    requires e.conn.nodes[q].goThrough == (!Open(e.conn, q) || Gate(Log(q, e.accepted)))
    ensures e1.conn.nodes[q].goThrough == (!Open(e1.conn, q) || Gate(Log(q, e1.accepted)))
  {
    LogSnoc(q, e.accepted, m);
    BodySnoc(Log(q, e.accepted), m.body);
  }

  lemma HandledData(e: End, e1: End, m: Msg)
    requires DataKept(e) && GateKept(e) && Handled(e, e1, m)
    ensures DataKept(e1) && GateKept(e1)
  {
    forall q | q in e1.conn.nodes
      ensures Datas(Log(q, e1.taken)) + e1.conn.nodes[q].received == Datas(Log(q, e1.accepted))
      ensures e1.conn.nodes[q].goThrough == (!Open(e1.conn, q) || Gate(Log(q, e1.accepted)))
    {
      HandledDataOf(e, e1, m, q);
      HandledGateOf(e, e1, m, q);
    }
  }

  /** One more packet in the receiving queue, announced by SLOW_DOWN when it fills the queue. */
  lemma FlowFills(nd: Node, l: seq<Body>, lowered: bool, d: Bytes)
    requires FlowOf(nd, l, lowered)
    ensures FlowOf(nd.(received := nd.received + [d]), if |nd.received| == nd.capacity - 1 then l + [SlowDown] else l, lowered)
  {
    BodySnoc(l, SlowDown);
  }

  lemma FlowUntouched(nd: Node, nd1: Node, l: seq<Body>, lowered: bool)
    requires FlowOf(nd, l, lowered) && nd1.received == nd.received && nd1.capacity == nd.capacity
    ensures FlowOf(nd1, l, lowered)
  {
  }

  lemma LogMaybe(p: Path, s: seq<Msg>, t: seq<Msg>)
    requires |t| <= 1
    ensures Log(p, s + t) == if t != [] && t[0].path == p then Log(p, s) + [t[0].body] else Log(p, s)
  {
    if t == [] {
      assert s + t == s;
    } else {
      assert t == [t[0]];
      LogSnoc(p, s, t[0]);
    }
  }

  lemma HandledFlowOf(e: End, e1: End, m: Msg, q: Path)
    requires Handled(e, e1, m) && Open(e.conn, q)
    requires FlowOf(e.conn.nodes[q], Log(q, e.emitted), q in e.lowered)
    ensures FlowOf(e1.conn.nodes[q], Log(q, e1.emitted), q in e1.lowered)
  {
    var nd, l := e.conn.nodes[q], Log(q, e.emitted);
    LogMaybe(q, e.emitted, HandleEmits(e, m));
    if q == m.path && m.body.Data? {
      FlowFills(nd, l, q in e.lowered, m.body.payload);
      assert e1.conn.nodes[q] == nd.(received := nd.received + [m.body.payload]);
      assert Log(q, e1.emitted) == if |nd.received| == nd.capacity - 1 then l + [SlowDown] else l;
    } else {
      assert Log(q, e1.emitted) == l;
      FlowUntouched(nd, e1.conn.nodes[q], l, q in e.lowered);
    }
  }

  lemma HandledFlow(e: End, e1: End, m: Msg)
    requires FlowKept(e) && Handled(e, e1, m)
    ensures FlowKept(e1)
  {
    forall q | Open(e1.conn, q) ensures FlowOf(e1.conn.nodes[q], Log(q, e1.emitted), q in e1.lowered) {
      assert Open(e.conn, q);
      assert FlowOf(e.conn.nodes[q], Log(q, e.emitted), q in e.lowered);
      HandledFlowOf(e, e1, m, q);
    }
  }

  lemma HandleKeeps(e: End, m: Msg)
    requires WellFormed(e.conn) && Open(e.conn, m.path) && QuietBody(m.body)
    ensures WellFormed(HandleAt(e, m).conn)
  {
    match m.body
    case SlowDown => SetGateKeeps(e.conn, m.path, false);
    case GoThrough => SetGateKeeps(e.conn, m.path, true);
    case Data(d) => ReceiveKeeps(e.conn, m.path, d);
    case _ =>
  }

  lemma HandleQuietLocal(e: End, m: Msg)
    requires Local(e) && Open(e.conn, m.path) && QuietBody(m.body)
    ensures Local(HandleAt(e, m))
  {
    HandleKeeps(e, m);
    var e1 := HandleAt(e, m);
    HandleShape(e, m);
    HandledData(e, e1, m);
    HandledFlow(e, e1, m);
    HandledQuiet(e, e1, m);
    QuietFamily(e, e1, HandleEmits(e, m), [m], []);
  }

  // ---- New channels ----

  function Grown(s: seq<Msg>, grows: bool, m: Msg): seq<Msg> { if grows then s + [m] else s }

  /** Sub(p, n) appears; the one new packet, MAKE(n) of p, is in `emitted` if this end made it and in `accepted` otherwise. */
  ghost predicate Birth(e: End, e1: End, p: Path, n: nat, made: bool) {
    && Open(e.conn, p) && Sub(p, n) !in e.conn.nodes && p != Sub(p, n)
    && p in e1.conn.nodes
    && e1.conn.nodes == e.conn.nodes[p := e1.conn.nodes[p]][Sub(p, n) := NewNode(made, e.conn.nodes[p].capacity)]
    && (var a, b := e.conn.nodes[p], e1.conn.nodes[p];
        && b == a.(next := b.next, channels := b.channels, pending := b.pending)
        && (forall k :: Own(b, k) <==> Own(a, k) || (made && k == n)))
    && e1.taken == e.taken && e1.lowered == e.lowered
    && e1.emitted == Grown(e.emitted, made, Msg(p, MakeChannel(n)))
    && e1.accepted == Grown(e.accepted, !made, Msg(p, MakeChannel(n)))
  }

  lemma GrownChannel(p: Path, n: nat, s: seq<Msg>, grows: bool, q: Path)
    ensures var l, l1 := Log(q, s), Log(q, Grown(s, grows, Msg(p, MakeChannel(n))));
      && Datas(l1) == Datas(l) && Gate(l1) == Gate(l) && (Alternating(l) ==> Alternating(l1)) && (q != p ==> l1 == l)
  {
    if grows {
      LogSnoc(q, s, Msg(p, MakeChannel(n)));
      BodySnoc(Log(q, s), MakeChannel(n));
    }
  }

  lemma GrownLog(p: Path, n: nat, s: seq<Msg>, grows: bool, q: Path, k: nat)
    ensures var l, l1 := Log(q, s), Log(q, Grown(s, grows, Msg(p, MakeChannel(n))));
      && (MakeChannel(k) in l1 <==> MakeChannel(k) in l || (grows && q == p && k == n))
      && (DestroyChannel(k) in l1 <==> DestroyChannel(k) in l)
      && multiset(l1)[DestroyChannel(k)] == multiset(l)[DestroyChannel(k)]
      && multiset(l1)[MakeChannel(k)] == multiset(l)[MakeChannel(k)] + if grows && q == p && k == n then 1 else 0
  {
    if grows {
      LogSnoc(q, s, Msg(p, MakeChannel(n)));
    }
  }

  /** What Birth means for one channel q. */
  ghost predicate Around(e: End, e1: End, p: Path, n: nat, made: bool, q: Path) {
    && (q in e1.conn.nodes <==> q in e.conn.nodes || q == Sub(p, n))
    && (Open(e1.conn, q) <==> Open(e.conn, q) || q == Sub(p, n))
    && (q == Sub(p, n) ==> q !in e.conn.nodes && e1.conn.nodes[q].positive == made && forall k :: !Own(e1.conn.nodes[q], k))
    && (q in e.conn.nodes ==>
          var a, b := e.conn.nodes[q], e1.conn.nodes[q];
          b.positive == a.positive && forall k :: Own(b, k) <==> Own(a, k) || (made && q == p && k == n))
  }

  lemma BirthAround(e: End, e1: End, p: Path, n: nat, made: bool, q: Path)
    requires Birth(e, e1, p, n, made)
    ensures Around(e, e1, p, n, made, q)
  {
  }

  lemma BirthKid(e: End, e1: End, p: Path, n: nat, made: bool, q: Path, k: nat)
    requires KidOf(e, q, k) && Around(e, e1, p, n, made, Sub(q, k))
    requires e1.emitted == Grown(e.emitted, made, Msg(p, MakeChannel(n)))
    requires e1.accepted == Grown(e.accepted, !made, Msg(p, MakeChannel(n)))
    ensures KidOf(e1, q, k)
  {
    GrownLog(p, n, e.emitted, made, q, k);
    GrownLog(p, n, e.accepted, !made, q, k);
  }

  lemma BirthNumber(e: End, e1: End, p: Path, n: nat, made: bool, q: Path, k: nat)
    requires NumberOf(e, q, k) && Around(e, e1, p, n, made, q)
    requires q !in e.conn.nodes ==> Log(q, e.emitted) == []
    requires Open(e.conn, p) && (made ==> !Own(e.conn.nodes[p], n))
    requires Sub(p, n) !in e.conn.nodes
    requires e1.emitted == Grown(e.emitted, made, Msg(p, MakeChannel(n)))
    ensures NumberOf(e1, q, k)
  {
    GrownLog(p, n, e.emitted, made, q, k);
  }

  lemma BirthDestroy(e: End, e1: End, p: Path, n: nat, made: bool, q: Path, k: nat)
    requires DestroyOf(e, q, k) && Around(e, e1, p, n, made, q) && Around(e, e1, p, n, made, Sub(q, k))
    requires Sub(q, k) in e.conn.nodes ==> q in e.conn.nodes
    requires e1.emitted == Grown(e.emitted, made, Msg(p, MakeChannel(n)))
    requires e1.accepted == Grown(e.accepted, !made, Msg(p, MakeChannel(n)))
    ensures DestroyOf(e1, q, k)
  {
    GrownLog(p, n, e.emitted, made, q, k);
    GrownLog(p, n, e.accepted, !made, q, k);
  }

  lemma BirthFamily(e: End, e1: End, p: Path, n: nat, made: bool)
    requires Family(e) && TreeShape(e.conn) && Birth(e, e1, p, n, made) && (made ==> !Own(e.conn.nodes[p], n))
    ensures Family(e1)
  {
    forall q, k ensures KidOf(e1, q, k) && NumberOf(e1, q, k) && DestroyOf(e1, q, k) {
      assert KidOf(e, q, k) && NumberOf(e, q, k) && DestroyOf(e, q, k);
      BirthAround(e, e1, p, n, made, q);
      BirthAround(e, e1, p, n, made, Sub(q, k));
      BirthKid(e, e1, p, n, made, q, k);
      BirthNumber(e, e1, p, n, made, q, k);
      BirthDestroy(e, e1, p, n, made, q, k);
    }
    BirthKnown(e, e1, p, n, made);
  }

  lemma BirthFlow(e: End, e1: End, p: Path, n: nat, made: bool, q: Path)
    requires FlowKept(e) && LogsKnown(e) && Birth(e, e1, p, n, made) && Open(e1.conn, q)
    ensures FlowOf(e1.conn.nodes[q], Log(q, e1.emitted), q in e1.lowered)
  {
    GrownChannel(p, n, e.emitted, made, q);
    assert FlowOf(e.conn.nodes[p], Log(p, e.emitted), p in e.lowered);
    if q == Sub(p, n) {
      assert Log(q, e.emitted) == [];
    } else {
      assert Open(e.conn, q);
    }
  }

  lemma BirthChannel(e: End, e1: End, p: Path, n: nat, made: bool, q: Path)
    requires DataKept(e) && GateKept(e) && FlowKept(e) && LogsKnown(e) && Birth(e, e1, p, n, made)
    requires q in e1.conn.nodes
    ensures Datas(Log(q, e1.taken)) + e1.conn.nodes[q].received == Datas(Log(q, e1.accepted))
    ensures e1.conn.nodes[q].goThrough == (!Open(e1.conn, q) || Gate(Log(q, e1.accepted)))
    ensures Open(e1.conn, q) ==> FlowOf(e1.conn.nodes[q], Log(q, e1.emitted), q in e1.lowered)
  {
    GrownChannel(p, n, e.accepted, !made, q);
    if q == Sub(p, n) {
      assert Log(q, e.accepted) == [] && Log(q, e.taken) == [];
    }
    if Open(e1.conn, q) { BirthFlow(e, e1, p, n, made, q); }
  }

  lemma BirthChannels(e: End, e1: End, p: Path, n: nat, made: bool)
    requires DataKept(e) && GateKept(e) && FlowKept(e) && LogsKnown(e) && Birth(e, e1, p, n, made)
    ensures DataKept(e1) && GateKept(e1) && FlowKept(e1)
  {
    forall q | q in e1.conn.nodes
      ensures Datas(Log(q, e1.taken)) + e1.conn.nodes[q].received == Datas(Log(q, e1.accepted))
      ensures e1.conn.nodes[q].goThrough == (!Open(e1.conn, q) || Gate(Log(q, e1.accepted)))
      ensures Open(e1.conn, q) ==> FlowOf(e1.conn.nodes[q], Log(q, e1.emitted), q in e1.lowered)
    {
      BirthChannel(e, e1, p, n, made, q);
    }
  }

  lemma BirthKnown(e: End, e1: End, p: Path, n: nat, made: bool)
    requires LogsKnown(e) && Birth(e, e1, p, n, made)
    ensures LogsKnown(e1)
  {
    forall q | q !in e1.conn.nodes
      ensures Log(q, e1.emitted) == [] && Log(q, e1.accepted) == [] && Log(q, e1.taken) == []
    {
      GrownChannel(p, n, e.emitted, made, q);
      GrownChannel(p, n, e.accepted, !made, q);
      assert q !in e.conn.nodes;
    }
  }

  lemma BirthLocal(e: End, e1: End, p: Path, n: nat, made: bool)
    requires Local(e) && Birth(e, e1, p, n, made) && (made ==> !Own(e.conn.nodes[p], n))
    requires WellFormed(e1.conn)
    ensures Local(e1)
  {
    BirthFamily(e, e1, p, n, made);
    BirthChannels(e, e1, p, n, made);
  }

  lemma MakeIsBirth(e: End, p: Path)
    requires Fresh(e.conn, p)
    ensures Birth(e, MakeChannelAt(e, p), p, e.conn.nodes[p].next, true)
  {
    ParentAbove(Sub(p, e.conn.nodes[p].next));
  }

  lemma MakeLocal(e: End, p: Path)
    requires Local(e) && Fresh(e.conn, p)
    ensures Local(MakeChannelAt(e, p))
  {
    MakeIsBirth(e, p);
    MakeKeeps(e.conn, p);
    BirthLocal(e, MakeChannelAt(e, p), p, e.conn.nodes[p].next, true);
  }

  lemma AnnounceIsBirth(e: End, p: Path, n: nat)
    requires Open(e.conn, p) && Sub(p, n) !in e.conn.nodes
    ensures Birth(e, HandleAt(e, Msg(p, MakeChannel(n))), p, n, false)
  {
    ParentAbove(Sub(p, n));
  }

  lemma AnnounceLocal(e: End, p: Path, n: nat)
    requires Local(e) && Open(e.conn, p) && Sub(p, n) !in e.conn.nodes && 2 <= n < U32_LIMIT
    ensures Local(HandleAt(e, Msg(p, MakeChannel(n))))
  {
    AnnounceIsBirth(e, p, n);
    AnnouncedKeeps(e.conn, p, n);
    BirthLocal(e, HandleAt(e, Msg(p, MakeChannel(n))), p, n, false);
  }
}
