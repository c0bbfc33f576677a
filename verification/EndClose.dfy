/** Closing channels, from either side, keeps what the history of an end says. */
module EndClose {
  import opened Wire
  import opened ChannelTree
  import opened TreeInvariant
  import opened ChannelLog
  import opened EndHistory
  import opened EndChange

  /** What closing q does to the fields of one channel that the history speaks about. */
  ghost predicate ClosedNode(a: Node, b: Node, below: bool) {
    && b.positive == a.positive && b.next == a.next && b.received == a.received && b.capacity == a.capacity
    && (if below then b.error != NoError && (b.goThrough == (a.error == NoError || a.goThrough))
        else b.error == a.error && b.goThrough == a.goThrough)
  }

  /** Everything at or below q is closed; at most the DESTROY of q joins a history. */
  ghost predicate Closure(e: End, e1: End, q: Path, sent: bool, got: bool) {
    && e1.conn.nodes.Keys == e.conn.nodes.Keys
    && (forall x :: x in e.conn.nodes ==> ClosedNode(e.conn.nodes[x], e1.conn.nodes[x], Under(x, q)))
    && (q.Sub? ==> sent || got) && (sent || got ==> q.Sub? && q in e.conn.nodes) && (sent ==> Open(e.conn, q))
    && (q.Sub? ==> e1.emitted == Grown(e.emitted, sent, DestroyOfPath(q)) && e1.accepted == Grown(e.accepted, got, DestroyOfPath(q)))
    && (q.Root? ==> e1.emitted == e.emitted && e1.accepted == e.accepted)
    && e1.taken == e.taken && e1.lowered == e.lowered
  }

  function DestroyOfPath(q: Path): Msg
    requires q.Sub?
  {
    Msg(q.parent, DestroyChannel(q.number))
  }

  lemma GrownDestroy(q: Path, s: seq<Msg>, grows: bool, x: Path, k: nat)
    requires q.Sub?
    ensures var l, l1 := Log(x, s), Log(x, Grown(s, grows, DestroyOfPath(q)));
      && Datas(l1) == Datas(l) && Gate(l1) == Gate(l) && (Alternating(l) ==> Alternating(l1))
      && (x != q.parent ==> l1 == l)
      && (DestroyChannel(k) in l1 <==> DestroyChannel(k) in l || (grows && Sub(x, k) == q))
      && (MakeChannel(k) in l1 <==> MakeChannel(k) in l)
      && multiset(l1)[MakeChannel(k)] == multiset(l)[MakeChannel(k)]
      && multiset(l1)[DestroyChannel(k)] == multiset(l)[DestroyChannel(k)] + if grows && Sub(x, k) == q then 1 else 0
  {
    if grows {
      LogSnoc(x, s, DestroyOfPath(q));
      BodySnoc(Log(x, s), DestroyChannel(q.number));
    }
  }

  lemma ClosureLogs(e: End, e1: End, q: Path, sent: bool, got: bool, x: Path, k: nat)
    requires Closure(e, e1, q, sent, got)
    ensures var l, l1 := Log(x, e.emitted), Log(x, e1.emitted);
      && Gate(l1) == Gate(l) && (Alternating(l) ==> Alternating(l1))
      && (DestroyChannel(k) in l1 <==> DestroyChannel(k) in l || (sent && Sub(x, k) == q))
      && (MakeChannel(k) in l1 <==> MakeChannel(k) in l)
      && multiset(l1)[MakeChannel(k)] == multiset(l)[MakeChannel(k)]
      && multiset(l1)[DestroyChannel(k)] == multiset(l)[DestroyChannel(k)] + if sent && Sub(x, k) == q then 1 else 0
    ensures var l, l1 := Log(x, e.accepted), Log(x, e1.accepted);
      && Datas(l1) == Datas(l) && Gate(l1) == Gate(l)
      && (DestroyChannel(k) in l1 <==> DestroyChannel(k) in l || (got && Sub(x, k) == q))
      && (MakeChannel(k) in l1 <==> MakeChannel(k) in l)
  {
    if q.Sub? {
      GrownDestroy(q, e.emitted, sent, x, k);
      GrownDestroy(q, e.accepted, got, x, k);
    }
  }

  /** What Closure means for one channel x. */
  ghost predicate Aside(e: End, e1: End, q: Path, x: Path) {
    && (x in e1.conn.nodes <==> x in e.conn.nodes)
    && (Open(e1.conn, x) <==> Open(e.conn, x) && !Under(x, q))
    && (x in e.conn.nodes ==> ClosedNode(e.conn.nodes[x], e1.conn.nodes[x], Under(x, q)))
  }

  lemma ClosureAside(e: End, e1: End, q: Path, sent: bool, got: bool, x: Path)
    requires Closure(e, e1, q, sent, got)
    ensures Aside(e, e1, q, x)
  {
  }

  lemma ClosureKid(e: End, e1: End, q: Path, sent: bool, got: bool, x: Path, k: nat)
    requires KidOf(e, x, k) && NumberOf(e, x, k) && Closure(e, e1, q, sent, got)
    ensures KidOf(e1, x, k) && NumberOf(e1, x, k)
  {
    ClosureAside(e, e1, q, sent, got, x);
    ClosureAside(e, e1, q, sent, got, Sub(x, k));
    ClosureLogs(e, e1, q, sent, got, x, k);
  }

  lemma ClosureDestroy(e: End, e1: End, q: Path, sent: bool, got: bool, x: Path, k: nat)
    requires DestroyOf(e, x, k) && Closure(e, e1, q, sent, got)
    ensures DestroyOf(e1, x, k)
  {
    ClosureAside(e, e1, q, sent, got, x);
    ClosureAside(e, e1, q, sent, got, Sub(x, k));
    ClosureLogs(e, e1, q, sent, got, x, k);
    assert Under(Sub(x, k), q) <==> Sub(x, k) == q || Under(x, q);
  }

  lemma ClosureKnown(e: End, e1: End, q: Path, sent: bool, got: bool)
    requires LogsKnown(e) && Closure(e, e1, q, sent, got)
    requires q.Sub? ==> q.parent in e.conn.nodes
    ensures LogsKnown(e1)
  {
    forall x | x !in e1.conn.nodes
      ensures Log(x, e1.emitted) == [] && Log(x, e1.accepted) == [] && Log(x, e1.taken) == []
    {
      if q.Sub? {
        GrownDestroy(q, e.emitted, sent, x, 0);
        GrownDestroy(q, e.accepted, got, x, 0);
      }
      assert x !in e.conn.nodes;
    }
  }

  lemma ClosureFamily(e: End, e1: End, q: Path, sent: bool, got: bool)
    requires Family(e) && Closure(e, e1, q, sent, got)
    requires q.Sub? ==> q.parent in e.conn.nodes
    ensures Family(e1)
  {
    forall x, k ensures KidOf(e1, x, k) && NumberOf(e1, x, k) && DestroyOf(e1, x, k) {
      assert KidOf(e, x, k) && NumberOf(e, x, k) && DestroyOf(e, x, k);
      ClosureKid(e, e1, q, sent, got, x, k);
      ClosureDestroy(e, e1, q, sent, got, x, k);
    }
    ClosureKnown(e, e1, q, sent, got);
  }

  lemma ClosureChannel(e: End, e1: End, q: Path, sent: bool, got: bool, x: Path)
    requires DataKept(e) && GateKept(e) && FlowKept(e) && Closure(e, e1, q, sent, got) && x in e1.conn.nodes
    ensures Datas(Log(x, e1.taken)) + e1.conn.nodes[x].received == Datas(Log(x, e1.accepted))
    ensures e1.conn.nodes[x].goThrough == (!Open(e1.conn, x) || Gate(Log(x, e1.accepted)))
    ensures Open(e1.conn, x) ==> FlowOf(e1.conn.nodes[x], Log(x, e1.emitted), x in e1.lowered)
  {
    ClosureAside(e, e1, q, sent, got, x);
    ClosureLogs(e, e1, q, sent, got, x, 0);
    if Open(e1.conn, x) {
      assert FlowOf(e.conn.nodes[x], Log(x, e.emitted), x in e.lowered);
    }
  }

  lemma ClosureLocal(e: End, e1: End, q: Path, sent: bool, got: bool)
    requires Local(e) && Closure(e, e1, q, sent, got) && WellFormed(e1.conn)
    requires q.Sub? ==> q.parent in e.conn.nodes
    ensures Local(e1)
  {
    ClosureFamily(e, e1, q, sent, got);
    forall x | x in e1.conn.nodes
      ensures Datas(Log(x, e1.taken)) + e1.conn.nodes[x].received == Datas(Log(x, e1.accepted))
      ensures e1.conn.nodes[x].goThrough == (!Open(e1.conn, x) || Gate(Log(x, e1.accepted)))
      ensures Open(e1.conn, x) ==> FlowOf(e1.conn.nodes[x], Log(x, e1.emitted), x in e1.lowered)
    {
      ClosureChannel(e, e1, q, sent, got, x);
    }
  }

  lemma CloseIsClosure(e: End, q: Path)
    requires MayClose(e.conn, q)
    ensures Closure(e, CloseAt(e, q), q, true, false)
  {
    ParentAbove(q);
  }

  lemma CloseLocal(e: End, q: Path)
    requires Local(e) && MayClose(e.conn, q)
    ensures Local(CloseAt(e, q))
  {
    CloseIsClosure(e, q);
    CloseKeeps(e.conn, q, UserShutdown);
    ClosureLocal(e, CloseAt(e, q), q, true, false);
  }

  lemma CloseAllIsClosure(e: End, reason: ChannelError)
    requires Open(e.conn, Root) && reason != NoError
    ensures Closure(e, CloseAll(e, reason), Root, false, false)
  {
    forall x | x in e.conn.nodes ensures Under(x, Root) {
      UnderRoot(x);
    }
  }

  lemma CloseAllLocal(e: End, reason: ChannelError)
    requires Local(e) && reason != NoError
    ensures Local(CloseAll(e, reason))
  {
    CloseRootKeeps(e.conn, reason);
    if Open(e.conn, Root) {
      CloseAllIsClosure(e, reason);
      ClosureLocal(e, CloseAll(e, reason), Root, false, false);
    }
  }

  lemma DestroyIsClosure(e: End, p: Path, n: nat)
    requires Open(e.conn, p) && n in e.conn.nodes[p].channels && Sub(p, n) in e.conn.nodes
    ensures Closure(e, HandleAt(e, Msg(p, DestroyChannel(n))), Sub(p, n), false, true)
  {
    ParentAbove(Sub(p, n));
  }

  lemma DestroyWellFormed(e: End, p: Path, n: nat)
    requires WellFormed(e.conn) && Open(e.conn, p)
    ensures WellFormed(HandleAt(e, Msg(p, DestroyChannel(n))).conn)
  {
    DestroyedKeeps(e.conn, p, n);
  }

  lemma FirstDestroyLocal(e: End, p: Path, n: nat)
    requires Local(e) && Open(e.conn, p) && Sub(p, n) in e.conn.nodes && n in e.conn.nodes[p].channels
    ensures Local(HandleAt(e, Msg(p, DestroyChannel(n))))
  {
    DestroyIsClosure(e, p, n);
    DestroyWellFormed(e, p, n);
    ClosureLocal(e, HandleAt(e, Msg(p, DestroyChannel(n))), Sub(p, n), false, true);
  }

  /** A DESTROY that crossed this end's own: the channel is closed already and nothing happens. */
  lemma LateDestroyLocal(e: End, p: Path, n: nat)
    requires Local(e) && Open(e.conn, p) && Sub(p, n) in e.conn.nodes && n !in e.conn.nodes[p].channels
    ensures Local(HandleAt(e, Msg(p, DestroyChannel(n))))
  {
    var e1 := HandleAt(e, Msg(p, DestroyChannel(n)));
    assert !Open(e.conn, Sub(p, n));
    LateDestroyFamily(e, e1, p, n);
    LateDestroyChannels(e, e1, p, n);
  }

  ghost predicate LateDestroy(e: End, e1: End, p: Path, n: nat) {
    && Sub(p, n) in e.conn.nodes && !Open(e.conn, Sub(p, n)) && p in e.conn.nodes
    && e1.conn == e.conn && e1.emitted == e.emitted && e1.taken == e.taken && e1.lowered == e.lowered
    && e1.accepted == Grown(e.accepted, true, DestroyOfPath(Sub(p, n)))
  }

  lemma LateDestroyFamily(e: End, e1: End, p: Path, n: nat)
    requires Family(e) && LateDestroy(e, e1, p, n)
    ensures Family(e1)
  {
    forall x, k ensures KidOf(e1, x, k) && NumberOf(e1, x, k) && DestroyOf(e1, x, k) {
      assert KidOf(e, x, k) && NumberOf(e, x, k) && DestroyOf(e, x, k);
      GrownDestroy(Sub(p, n), e.accepted, true, x, k);
    }
    forall x | x !in e1.conn.nodes
      ensures Log(x, e1.emitted) == [] && Log(x, e1.accepted) == [] && Log(x, e1.taken) == []
    {
      GrownDestroy(Sub(p, n), e.accepted, true, x, 0);
    }
  }

  lemma LateDestroyChannels(e: End, e1: End, p: Path, n: nat)
    requires DataKept(e) && GateKept(e) && FlowKept(e) && LateDestroy(e, e1, p, n)
    ensures DataKept(e1) && GateKept(e1) && FlowKept(e1)
  {
    forall x | x in e1.conn.nodes
      ensures Datas(Log(x, e1.taken)) + e1.conn.nodes[x].received == Datas(Log(x, e1.accepted))
      ensures e1.conn.nodes[x].goThrough == (!Open(e1.conn, x) || Gate(Log(x, e1.accepted)))
    {
      GrownDestroy(Sub(p, n), e.accepted, true, x, 0);
    }
    forall x | Open(e1.conn, x) ensures FlowOf(e1.conn.nodes[x], Log(x, e1.emitted), x in e1.lowered) {
      assert Open(e.conn, x);
    }
  }

  lemma DestroyLocal(e: End, p: Path, n: nat)
    requires Local(e) && Open(e.conn, p) && Sub(p, n) in e.conn.nodes
    ensures Local(HandleAt(e, Msg(p, DestroyChannel(n))))
  {
    if n in e.conn.nodes[p].channels {
      FirstDestroyLocal(e, p, n);
    } else {
      LateDestroyLocal(e, p, n);
    }
  }
}
