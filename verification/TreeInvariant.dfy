/** Every operation of ChannelTree keeps the structure of a connection end. */
module TreeInvariant {
  import opened Wire
  import opened ChannelTree

  lemma EnqueueKeeps(c: Conn, m: Msg)
    requires WellFormed(c)
    ensures WellFormed(Enqueue(c, m))
  {
  }

  /** Room in the number space of a channel, and a number nobody below it uses yet. */
  predicate Fresh(c: Conn, p: Path) {
    Open(c, p) && var nd := c.nodes[p];
    && FIRST_POSITIVE <= nd.next <= FIRST_NEGATIVE
    && Sub(p, nd.next) !in c.nodes
  }

  lemma MakeIsNewChild(c: Conn, p: Path)
    requires Fresh(c, p) && PendingShape(c.nodes[p])
    ensures NewChild(c, MakeNode(c, p), p, c.nodes[p].next)
  {
    ParentAbove(Sub(p, c.nodes[p].next));
  }

  lemma MakeNodeKeeps(c: Conn, p: Path)
    requires WellFormed(c) && Fresh(c, p)
    ensures WellFormed(MakeNode(c, p)) && Open(MakeNode(c, p), p)
  {
    MakeIsNewChild(c, p);
    NewChildKeeps(c, MakeNode(c, p), p, c.nodes[p].next);
  }

  lemma MakeKeeps(c: Conn, p: Path)
    requires WellFormed(c) && Fresh(c, p)
    ensures WellFormed(Make(c, p))
  {
    MakeNodeKeeps(c, p);
    EnqueueKeeps(MakeNode(c, p), Msg(p, MakeChannel(c.nodes[p].next)));
  }

  /** The common part of make and announce: a new open child n of p appears, p's table gains n. */
  ghost predicate NewChild(c: Conn, c1: Conn, p: Path, n: nat) {
    && Open(c, p) && Sub(p, n) !in c.nodes && 2 <= n < U32_LIMIT
    && c1.queue == c.queue
    && c1.nodes.Keys == c.nodes.Keys + {Sub(p, n)}
    && (forall q :: q in c.nodes && q != p ==> c1.nodes[q] == c.nodes[q])
    && (var a, b := c.nodes[p], c1.nodes[p];
        && b.error == NoError && b.channels == a.channels + {n} && b.attached == a.attached && b.positive == a.positive
        && PendingShape(b)
        && if b.positive then FIRST_POSITIVE <= b.next <= U32_LIMIT else 1 <= b.next <= FIRST_NEGATIVE)
    && (var b := c1.nodes[Sub(p, n)]; b == NewNode(b.positive, b.capacity))
  }

  lemma NewChildOpen(c: Conn, c1: Conn, p: Path, n: nat)
    requires TreeShape(c) && NewChild(c, c1, p, n)
    ensures forall q :: Open(c1, q) <==> Open(c, q) || q == Sub(p, n)
    ensures TreeShape(c1)
  {
    assert Sub(p, n) != p by { ParentAbove(Sub(p, n)); }
  }

  lemma NewChildOpenShape(c: Conn, c1: Conn, p: Path, n: nat)
    requires TreeShape(c) && OpenShape(c) && NewChild(c, c1, p, n)
    ensures OpenShape(c1)
  {
    NewChildOpen(c, c1, p, n);
    forall q: Path, k: nat | Open(c1, Sub(q, k))
      ensures Open(c1, q) && k in c1.nodes[q].channels && c1.nodes[Sub(q, k)].attached
    {
    }
  }

  lemma NewChildTables(c: Conn, c1: Conn, p: Path, n: nat)
    requires TreeShape(c) && Tables(c) && NewChild(c, c1, p, n)
    ensures Tables(c1)
  {
    NewChildOpen(c, c1, p, n);
    forall q: Path, k: nat | q in c1.nodes && k in c1.nodes[q].channels
      ensures Open(c1, q) && Open(c1, Sub(q, k))
    {
      if Sub(q, k) != Sub(p, n) {
        assert k in c.nodes[q].channels;
      }
    }
  }

  lemma NewChildPendings(c: Conn, c1: Conn, p: Path, n: nat)
    requires TreeShape(c) && Pendings(c) && Numbers(c) && NewChild(c, c1, p, n)
    ensures Pendings(c1) && Numbers(c1)
  {
    NewChildOpen(c, c1, p, n);
    forall q | Open(c1, q) ensures PendingShape(c1.nodes[q]) {
      if q != p && q != Sub(p, n) { assert Open(c, q); }
    }
  }

  lemma NewChildKeeps(c: Conn, c1: Conn, p: Path, n: nat)
    requires WellFormed(c) && NewChild(c, c1, p, n)
    ensures WellFormed(c1)
  {
    NewChildOpen(c, c1, p, n);
    NewChildOpenShape(c, c1, p, n);
    NewChildTables(c, c1, p, n);
    NewChildPendings(c, c1, p, n);
  }

  lemma AnnouncedIsNewChild(c: Conn, p: Path, n: nat)
    requires Open(c, p) && Sub(p, n) !in c.nodes && 2 <= n < U32_LIMIT
    requires PendingShape(c.nodes[p]) && n !in c.nodes[p].channels
    requires var b := c.nodes[p]; if b.positive then FIRST_POSITIVE <= b.next <= U32_LIMIT else 1 <= b.next <= FIRST_NEGATIVE
    ensures NewChild(c, Announced(c, p, n), p, n)
  {
    ParentAbove(Sub(p, n));
  }

  lemma AnnouncedKeeps(c: Conn, p: Path, n: nat)
    requires WellFormed(c) && Open(c, p) && Sub(p, n) !in c.nodes && 2 <= n < U32_LIMIT
    ensures WellFormed(Announced(c, p, n))
  {
    assert n !in c.nodes[p].channels;
    AnnouncedIsNewChild(c, p, n);
    NewChildKeeps(c, Announced(c, p, n), p, n);
  }

  /** Changes to fields that the structure does not look at. */
  lemma FieldsKeep(c: Conn, c1: Conn, p: Path)
    requires WellFormed(c) && p in c.nodes && c1.queue == c.queue
    requires c1.nodes.Keys == c.nodes.Keys
    requires forall q :: q in c.nodes && q != p ==> c1.nodes[q] == c.nodes[q]
    requires var a, b := c.nodes[p], c1.nodes[p];
      && a.error == b.error && a.attached == b.attached && a.positive == b.positive && a.next == b.next
      && a.channels == b.channels
    requires Open(c, p) ==> PendingShape(c1.nodes[p])
    ensures WellFormed(c1)
  {
    assert forall q :: Open(c, q) <==> Open(c1, q);
    assert Tables(c1);
    assert Pendings(c1);
  }

  lemma ReceiveKeeps(c: Conn, p: Path, d: Bytes)
    requires WellFormed(c) && Open(c, p)
    ensures WellFormed(Receive(c, p, d))
  {
    var nd := c.nodes[p];
    var c1 := c.(nodes := c.nodes[p := nd.(received := nd.received + [d])]);
    FieldsKeep(c, c1, p);
    EnqueueKeeps(c1, Msg(p, SlowDown));
  }

  lemma TakePacketKeeps(c: Conn, p: Path)
    requires WellFormed(c) && p in c.nodes && c.nodes[p].received != []
    ensures WellFormed(TakePacket(c, p))
  {
    var nd := c.nodes[p];
    var c1 := c.(nodes := c.nodes[p := nd.(received := nd.received[1..])]);
    FieldsKeep(c, c1, p);
    EnqueueKeeps(c1, Msg(p, GoThrough));
  }

  lemma SetGateKeeps(c: Conn, p: Path, go: bool)
    requires WellFormed(c) && p in c.nodes
    ensures WellFormed(SetGate(c, p, go))
  {
    FieldsKeep(c, SetGate(c, p, go), p);
  }

  /** Taking an entry out keeps the rest, in order. */
  lemma {:induction false} WithoutSelects(s: seq<nat>, n: nat)
    requires forall i, j :: 0 <= i < j < |s| ==> s[i] != s[j]
    ensures var r := Without(s, n);
      && (forall x :: x in r <==> x in s && x != n)
      && (forall i, j :: 0 <= i < j < |r| ==> r[i] != r[j])
  {
    if s != [] {
      var r := Without(s, n);
      if s[0] != n {
        WithoutSelects(s[1..], n);
        var t := Without(s[1..], n);
        assert forall x :: x in t ==> x in s[1..];
        assert s[0] !in s[1..];
        assert r == [s[0]] + t;
        assert forall x :: x in s <==> x == s[0] || x in s[1..];
      } else {
        assert forall x :: x in s <==> x == s[0] || x in s[1..];
        assert s[0] !in s[1..];
      }
    }
  }

  lemma WithoutKeeps(nd: Node, n: nat)
    requires PendingShape(nd)
    ensures PendingShape(nd.(pending := Without(nd.pending, n)))
    ensures n !in Without(nd.pending, n)
  {
    WithoutSelects(nd.pending, n);
    var r := Without(nd.pending, n);
    forall i | 0 <= i < |r| ensures r[i] in nd.channels {
      assert r[i] in r;
      assert r[i] in nd.pending;
    }
  }

  lemma TakeChannelKeeps(c: Conn, p: Path, n: nat)
    requires WellFormed(c) && p in c.nodes
    ensures WellFormed(TakeChannel(c, p, n))
  {
    if Open(c, p) {
      WithoutKeeps(c.nodes[p], n);
      FieldsKeep(c, TakeChannel(c, p, n), p);
    }
  }

  // ---- Purging and closing ----

  lemma {:induction false} PurgeSelects(s: seq<Msg>, q: Path)
    ensures forall m :: m in Purge(s, q) <==> m in s && !Under(m.path, q)
  {
    if s != [] {
      var n := |s| - 1;
      PurgeSelects(s[..n], q);
      assert s == s[..n] + [s[n]];
    }
  }

  /** Sub(p, n) leaves p's table and everything at or below it is closed. */
  ghost predicate Closing(c: Conn, c1: Conn, p: Path, n: nat) {
    && c1.nodes.Keys == c.nodes.Keys
    && p in c.nodes
    && (forall x :: Open(c1, x) <==> Open(c, x) && !Under(x, Sub(p, n)))
    && (forall x :: Open(c1, x) && x != p ==> c1.nodes[x] == c.nodes[x])
    && c1.nodes[p] == c.nodes[p].(channels := c.nodes[p].channels - {n})
    && (forall x :: x in c.nodes ==>
          c1.nodes[x].channels <= c.nodes[x].channels && c1.nodes[x].positive == c.nodes[x].positive
          && c1.nodes[x].next == c.nodes[x].next && (!Open(c1, x) && Open(c, x) ==> c1.nodes[x].channels == {}))
  }

  lemma CloseUnderIsClosing(c: Conn, p: Path, n: nat, reason: ChannelError, keep: bool, queue: seq<Msg>)
    requires Open(c, p) && reason != NoError
    ensures Closing(c, c.(nodes := CloseUnder(Forget(c.nodes, p, n), Sub(p, n), reason, keep), queue := queue), p, n)
  {
    var c1 := c.(nodes := CloseUnder(Forget(c.nodes, p, n), Sub(p, n), reason, keep), queue := queue);
    assert !Under(p, Sub(p, n)) by { ParentAbove(Sub(p, n)); }
    forall x | x in c.nodes
      ensures x == p || Under(x, Sub(p, n)) || c1.nodes[x] == c.nodes[x]
      ensures Open(c1, x) <==> Open(c, x) && !Under(x, Sub(p, n))
      ensures var a, b := c.nodes[x], c1.nodes[x];
        b.channels <= a.channels && b.positive == a.positive && b.next == a.next && (!Open(c1, x) && Open(c, x) ==> b.channels == {})
    {
      CloseOne(c.nodes, p, n, reason, keep, x);
    }
  }

  lemma CloseOne(nodes: map<Path, Node>, p: Path, n: nat, reason: ChannelError, keep: bool, x: Path)
    requires p in nodes && x in nodes && reason != NoError && !Under(p, Sub(p, n))
    ensures var q, a, b := Sub(p, n), nodes[x], CloseUnder(Forget(nodes, p, n), Sub(p, n), reason, keep)[x];
      if Under(x, q) && a.error == NoError then b == Shut(a, reason, keep && x == q)
      else if x == p then b == a.(channels := a.channels - {n}) else b == a
  {
  }

  lemma ClosingOpenShape(c: Conn, c1: Conn, p: Path, n: nat)
    requires OpenShape(c) && Closing(c, c1, p, n)
    ensures OpenShape(c1)
  {
    forall x: Path, k: nat | Open(c1, Sub(x, k))
      ensures Open(c1, x) && k in c1.nodes[x].channels && c1.nodes[Sub(x, k)].attached
    {
      assert Open(c, Sub(x, k));
      assert !Under(x, Sub(p, n));
    }
  }

  lemma ClosingTables(c: Conn, c1: Conn, p: Path, n: nat)
    requires TreeShape(c) && Tables(c) && Closing(c, c1, p, n)
    ensures Tables(c1)
  {
    forall x: Path, k: nat | x in c1.nodes && k in c1.nodes[x].channels
      ensures Open(c1, x) && Open(c1, Sub(x, k))
    {
      assert k in c.nodes[x].channels;
      assert Open(c, x) && Open(c, Sub(x, k));
      assert Open(c1, x);
    }
  }

  lemma ClosingSkeleton(c: Conn, c1: Conn, p: Path, n: nat)
    requires Skeleton(c) && Closing(c, c1, p, n) && Open(c, p)
    requires forall m :: m in c1.queue ==> Open(c, m.path) && !Under(m.path, Sub(p, n))
    ensures Skeleton(c1)
  {
    ClosingOpenShape(c, c1, p, n);
    ClosingTables(c, c1, p, n);
  }

  lemma ClosingPendings(c: Conn, c1: Conn, p: Path, n: nat)
    requires Pendings(c) && Closing(c, c1, p, n) && Open(c, p) && n !in c.nodes[p].pending
    ensures Pendings(c1)
  {
    forall x | Open(c1, x) ensures PendingShape(c1.nodes[x]) {
      assert Open(c, x);
    }
  }

  lemma CloseSkeleton(c: Conn, q: Path, reason: ChannelError)
    requires Skeleton(c) && q.Sub? && q.parent in c.nodes && reason != NoError
    ensures Skeleton(Close(c, q, reason)) && (Open(c, Root) ==> Open(Close(c, q, reason), Root))
  {
    if Open(c, q) {
      var s := c.queue + [Msg(q.parent, DestroyChannel(q.number))];
      PurgeSelects(s, q);
      assert q == Sub(q.parent, q.number);
      CloseUnderIsClosing(c, q.parent, q.number, reason, true, Purge(s, q));
      ClosingSkeleton(c, Close(c, q, reason), q.parent, q.number);
    }
  }

  lemma CloseKeeps(c: Conn, q: Path, reason: ChannelError)
    requires WellFormed(c) && q.Sub? && q.parent in c.nodes && reason != NoError
    requires q.number !in c.nodes[q.parent].pending
    ensures WellFormed(Close(c, q, reason))
  {
    CloseSkeleton(c, q, reason);
    if Open(c, q) {
      assert q == Sub(q.parent, q.number);
      CloseUnderIsClosing(c, q.parent, q.number, reason, true, Purge(c.queue + [Msg(q.parent, DestroyChannel(q.number))], q));
      ClosingPendings(c, Close(c, q, reason), q.parent, q.number);
    }
  }

  lemma DestroyedKeeps(c: Conn, p: Path, n: nat)
    requires WellFormed(c) && Open(c, p)
    ensures WellFormed(Destroyed(c, p, n))
  {
    if n in c.nodes[p].channels {
      var c1 := SetPending(c, p, Without(c.nodes[p].pending, n));
      WithoutKeeps(c.nodes[p], n);
      FieldsKeep(c, c1, p);
      PurgeSelects(c1.queue, Sub(p, n));
      CloseUnderIsClosing(c1, p, n, RemotePeerClosedError, false, Purge(c1.queue, Sub(p, n)));
      ClosingSkeleton(c1, Destroyed(c, p, n), p, n);
      ClosingPendings(c1, Destroyed(c, p, n), p, n);
    }
  }

  lemma CloseRootKeeps(c: Conn, reason: ChannelError)
    requires Skeleton(c) && reason != NoError
    ensures WellFormed(CloseRoot(c, reason))
    ensures forall p :: !Open(CloseRoot(c, reason), p)
  {
    var c1 := CloseRoot(c, reason);
    forall p ensures !Open(c1, p) {
      UnderRoot(p);
      if Open(c, p) && !Open(c, Root) { OpenAbove(c, p, Root); }
    }
  }

  lemma PendingInTable(c: Conn, p: Path, n: nat)
    requires Pendings(c) && Open(c, p) && n !in c.nodes[p].channels
    ensures n !in c.nodes[p].pending
  {
    assert PendingShape(c.nodes[p]);
  }

  lemma {:induction false} WithoutNothing(s: seq<nat>, n: nat)
    requires n !in s
    ensures Without(s, n) == s
  {
    if s != [] { WithoutNothing(s[1..], n); }
  }

  /** The queue may lose its head. */
  lemma QueueTail(c: Conn)
    requires WellFormed(c) && c.queue != []
    ensures WellFormed(c.(queue := c.queue[1..]))
  {
    var c1 := c.(queue := c.queue[1..]);
    assert forall q :: Open(c1, q) <==> Open(c, q);
    assert Tables(c1) && Pendings(c1);
  }
}
