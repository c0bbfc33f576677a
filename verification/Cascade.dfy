/** The maps behind the close cascade of the multiplexer, one child at a time. */
module Cascade {
  import opened Wire
  import opened ChannelTree
  import opened TreeInvariant

  type Nodes = map<Path, Node>

  predicate IsOpen(nodes: Nodes, p: Path) { p in nodes && nodes[p].error == NoError }

  /** is_ok of the channel at p: no error there nor in any parent, and all of them attached. */
  predicate OkIn(nodes: Nodes, p: Path) {
    p in nodes && nodes[p].error == NoError && (p.Sub? ==> nodes[p].attached && OkIn(nodes, p.parent))
  }

  /** Losing a table entry does not change who is ok. */
  lemma OkSame(nodes: Nodes, p: Path, n: nat, x: Path)
    requires p in nodes && OkIn(nodes, x)
    ensures OkIn(Forget(nodes, p, n), x)
  {
    if x.Sub? { OkSame(nodes, p, n, x.parent); }
  }

  /** Neither does the error of a channel that is not above. */
  lemma OkElsewhere(nodes: Nodes, q: Path, nd: Node, x: Path)
    requires OkIn(nodes, x) && !Under(x, q)
    ensures OkIn(nodes[q := nd], x)
  {
    if x.Sub? { OkElsewhere(nodes, q, nd, x.parent); }
  }

  function OpenSet(nodes: Nodes): set<Path> { set p | p in nodes && nodes[p].error == NoError }

  /** Below q the open channels hang together: each is in its parent's table, and each table entry is an open channel. */
  ghost predicate Shape(nodes: Nodes, q: Path) {
    && (forall p: Path, n: nat {:trigger Sub(p, n)} :: IsOpen(nodes, Sub(p, n)) && Under(p, q) ==>
          p in nodes && n in nodes[p].channels && (p == q || IsOpen(nodes, p)))
    && (forall p: Path, n: nat :: p in nodes && Under(p, q) && n in nodes[p].channels ==> IsOpen(nodes, Sub(p, n)))
  }

  /** Which child of q leads to x. */
  function Branch(x: Path, q: Path): nat
    requires Under(x, q) && x != q
  {
    if x.parent == q then x.number else Branch(x.parent, q)
  }

  /** What is left of one channel when q, which has its error already, has shut all children but those numbered in `rest`. */
  function ShutChild(nd: Node, x: Path, q: Path, rest: set<nat>, reason: ChannelError): Node {
    if x == q then nd.(channels := rest, goThrough := true)
    else if Under(x, q) && Branch(x, q) !in rest && nd.error == NoError then Shut(nd, reason, false)
    else nd
  }

  function CloseSome(nodes: Nodes, q: Path, rest: set<nat>, reason: ChannelError): Nodes {
    map x | x in nodes :: ShutChild(nodes[x], x, q, rest, reason)
  }

  lemma BranchUnder(x: Path, q: Path, k: nat)
    requires Under(x, q)
    ensures Under(x, Sub(q, k)) <==> x != q && Branch(x, q) == k
  {
    if x == q {
      ParentAbove(Sub(q, k));
    } else if x.parent == q {
      if Under(x, Sub(q, k)) && x != Sub(q, k) { ParentAbove(Sub(q, k)); }
    } else {
      BranchUnder(x.parent, q, k);
      assert x != Sub(q, k);
    }
  }

  lemma {:induction false} UnderTrans(x: Path, q: Path, p: Path)
    requires Under(x, q) && Under(q, p)
    ensures Under(x, p)
  {
    if x != q { UnderTrans(x.parent, q, p); }
  }

  lemma NotUnderStays(x: Path, q: Path, k: nat)
    requires !Under(x, q)
    ensures !Under(x, Sub(q, k))
  {
    if Under(x, Sub(q, k)) { UnderParent(x, Sub(q, k)); }
  }

  lemma ShutOneMore(nd: Node, x: Path, q: Path, rest: set<nat>, k: nat, reason: ChannelError)
    requires k in rest && reason != NoError && x != q
    requires x == Sub(q, k) ==> nd.error == NoError
    ensures var a := ShutChild(nd, x, q, rest, reason);
            var b := if x == Sub(q, k) then a.(attached := false) else a;
      (if Under(x, Sub(q, k)) && b.error == NoError then Shut(b, reason, false) else b)
        == ShutChild(nd, x, q, rest - {k}, reason)
  {
    if Under(x, q) { BranchUnder(x, q, k); } else { NotUnderStays(x, q, k); }
  }

  /** q's nodes after child k was popped from the table and detached. */
  function Popped(s: Nodes, q: Path, k: nat): Nodes
    requires q in s && Sub(q, k) in s
  {
    var t := s[q := s[q].(channels := s[q].channels - {k})];
    t[Sub(q, k) := t[Sub(q, k)].(attached := false)]
  }

  lemma PoppedAt(s: Nodes, q: Path, k: nat, x: Path)
    requires q in s && Sub(q, k) in s && x in s
    ensures q != Sub(q, k)
    ensures Popped(s, q, k)[x] == if x == q then s[q].(channels := s[q].channels - {k})
                                  else if x == Sub(q, k) then s[x].(attached := false) else s[x]
  {
    ParentAbove(Sub(q, k));
  }

  lemma CloseOneChildAt(start: Nodes, q: Path, rest: set<nat>, k: nat, reason: ChannelError, x: Path)
    requires q in start && k in rest && Sub(q, k) in start && reason != NoError && start[Sub(q, k)].error == NoError
    requires x in start
    ensures CloseUnder(Popped(CloseSome(start, q, rest, reason), q, k), Sub(q, k), reason, false)[x]
         == ShutChild(start[x], x, q, rest - {k}, reason)
  {
    var s := CloseSome(start, q, rest, reason);
    assert s[x] == ShutChild(start[x], x, q, rest, reason);
    PoppedAt(s, q, k, x);
    if x == q {
      ParentAbove(Sub(q, k));
    } else {
      ShutOneMore(start[x], x, q, rest, k, reason);
    }
  }

  /** Popping child k, detaching it and closing it takes k out of `rest`. */
  lemma CloseOneChild(start: Nodes, q: Path, rest: set<nat>, k: nat, reason: ChannelError)
    requires q in start && k in rest && Sub(q, k) in start && reason != NoError && start[Sub(q, k)].error == NoError
    ensures CloseUnder(Popped(CloseSome(start, q, rest, reason), q, k), Sub(q, k), reason, false)
         == CloseSome(start, q, rest - {k}, reason)
  {
    var a := CloseUnder(Popped(CloseSome(start, q, rest, reason), q, k), Sub(q, k), reason, false);
    var b := CloseSome(start, q, rest - {k}, reason);
    SameKeys(start, q, rest, k, reason);
    forall x | x in start ensures a[x] == b[x] {
      CloseOneChildAt(start, q, rest, k, reason, x);
    }
  }

  lemma SameKeys(start: Nodes, q: Path, rest: set<nat>, k: nat, reason: ChannelError)
    requires q in start && Sub(q, k) in start
    ensures CloseUnder(Popped(CloseSome(start, q, rest, reason), q, k), Sub(q, k), reason, false).Keys == start.Keys
  {
  }

  /** Setting the error of q and then closing all its children is closing q. */
  lemma CloseWhole(nodes: Nodes, q: Path, reason: ChannelError, keep: bool)
    requires q in nodes && nodes[q].error == NoError && reason != NoError && (keep || !nodes[q].attached)
    ensures CloseSome(nodes[q := nodes[q].(error := reason)], q, {}, reason) == CloseUnder(nodes, q, reason, keep)
  {
    var f := nodes[q := nodes[q].(error := reason)];
    forall x | x in nodes ensures CloseSome(f, q, {}, reason)[x] == CloseUnder(nodes, q, reason, keep)[x] {
    }
  }

  /** Children that are not in the table have nothing open below them. */
  lemma {:induction false} OnlyTableChildren(nodes: Nodes, q: Path, x: Path)
    requires q in nodes && Shape(nodes, q) && IsOpen(nodes, x) && Under(x, q) && x != q
    ensures Branch(x, q) in nodes[q].channels
  {
    assert x == Sub(x.parent, x.number);
    assert Under(x.parent, q);
    if x.parent != q { OnlyTableChildren(nodes, q, x.parent); }
  }

  lemma CloseSomeStart(nodes: Nodes, q: Path, reason: ChannelError)
    requires q in nodes && Shape(nodes, q)
    ensures CloseSome(nodes, q, nodes[q].channels, reason) == nodes[q := nodes[q].(goThrough := true)]
  {
    forall x | x in nodes && x != q && Under(x, q) && nodes[x].error == NoError
      ensures Branch(x, q) in nodes[q].channels
    {
      OnlyTableChildren(nodes, q, x);
    }
  }

  /** A child about to be closed, with its siblings' state as it may be, still has its shape. */
  lemma ChildShape(start: Nodes, q: Path, rest: set<nat>, k: nat, reason: ChannelError)
    requires q in start && Shape(start, q) && k in rest && rest <= start[q].channels && Sub(q, k) in start
    ensures Shape(Popped(CloseSome(start, q, rest, reason), q, k), Sub(q, k))
  {
    var child := Popped(CloseSome(start, q, rest, reason), q, k);
    forall x | x in start && Under(x, Sub(q, k))
      ensures child[x].channels == start[x].channels && child[x].error == start[x].error
    {
      UnderParent(x, Sub(q, k));
      BranchUnder(x, q, k);
      PoppedAt(CloseSome(start, q, rest, reason), q, k, x);
    }
    forall p: Path, n: nat | IsOpen(child, Sub(p, n)) && Under(p, Sub(q, k))
      ensures p in child && n in child[p].channels && (p == Sub(q, k) || IsOpen(child, p))
    {
      assert Under(Sub(p, n), Sub(q, k));
      ChildIsLower(p, n, Sub(q, k));
      UnderTrans(p, Sub(q, k), q) by { assert Under(Sub(q, k), q); }
      assert IsOpen(start, Sub(p, n));
      if p == q { ParentAbove(Sub(q, k)); }
    }
    forall p: Path, n: nat | p in child && Under(p, Sub(q, k)) && n in child[p].channels
      ensures IsOpen(child, Sub(p, n))
    {
      UnderTrans(p, Sub(q, k), q) by { assert Under(Sub(q, k), q); }
      assert n in start[p].channels;
      assert IsOpen(start, Sub(p, n));
      ChildIsLower(p, n, Sub(q, k));
    }
  }

  lemma ChildIsLower(p: Path, n: nat, q: Path)
    requires Under(p, q)
    ensures Sub(p, n) != q && Under(Sub(p, n), q)
  {
    UnderDepth(p, q);
  }

  lemma OpenSetShrinks(start: Nodes, q: Path, rest: set<nat>, k: nat, reason: ChannelError)
    requires q in start && Sub(q, k) in start && reason != NoError
    ensures OpenSet(Popped(CloseSome(start, q, rest, reason), q, k)) <= OpenSet(start)
  {
    var s := CloseSome(start, q, rest, reason);
    forall x | x in OpenSet(Popped(s, q, k)) ensures x in OpenSet(start) {
      PoppedAt(s, q, k, x);
    }
  }

  /** All that one turn of the loop over the children needs. */
  lemma PoppedChild(start: Nodes, q: Path, rest: set<nat>, k: nat, reason: ChannelError)
    requires q in start && Shape(start, q) && k in rest && rest <= start[q].channels && reason != NoError
    ensures Sub(q, k) in start && Sub(q, k) in CloseSome(start, q, rest, reason)
    ensures var t := Popped(CloseSome(start, q, rest, reason), q, k);
      && Sub(q, k) in t && !t[Sub(q, k)].attached && t[Sub(q, k)].error == NoError && Shape(t, Sub(q, k))
      && OpenSet(t) <= OpenSet(start)
      && CloseUnder(t, Sub(q, k), reason, false) == CloseSome(start, q, rest - {k}, reason)
  {
    assert IsOpen(start, Sub(q, k));
    BranchUnder(Sub(q, k), q, k);
    ChildShape(start, q, rest, k, reason);
    CloseOneChild(start, q, rest, k, reason);
    OpenSetShrinks(start, q, rest, k, reason);
    PoppedAt(CloseSome(start, q, rest, reason), q, k, Sub(q, k));
  }

  /** Marking q with its error leaves the shape below it alone. */
  lemma ErrorShape(nodes: Nodes, q: Path, reason: ChannelError)
    requires q in nodes && Shape(nodes, q) && reason != NoError
    ensures Shape(nodes[q := nodes[q].(error := reason)], q)
  {
    var f := nodes[q := nodes[q].(error := reason)];
    forall p: Path, n: nat | IsOpen(f, Sub(p, n)) && Under(p, q)
      ensures p in f && n in f[p].channels && (p == q || IsOpen(f, p))
    {
      ChildIsLower(p, n, q);
      assert IsOpen(nodes, Sub(p, n));
    }
    forall p: Path, n: nat | p in f && Under(p, q) && n in f[p].channels ensures IsOpen(f, Sub(p, n)) {
      ChildIsLower(p, n, q);
      assert n in nodes[p].channels;
    }
  }

  lemma OpenShapeIsShape(c: Conn, q: Path)
    requires OpenShape(c) && Tables(c)
    ensures Shape(c.nodes, q)
  {
    forall p: Path, n: nat | IsOpen(c.nodes, Sub(p, n)) && Under(p, q)
      ensures p in c.nodes && n in c.nodes[p].channels && (p == q || IsOpen(c.nodes, p))
    {
      assert Open(c, Sub(p, n));
    }
    forall p: Path, n: nat | p in c.nodes && Under(p, q) && n in c.nodes[p].channels ensures IsOpen(c.nodes, Sub(p, n)) {
      assert Open(c, Sub(p, n));
    }
  }

  /** The parent's table is not below q. */
  lemma ForgetShape(nodes: Nodes, q: Path, p: Path, n: nat)
    requires p in nodes && !Under(p, q) && Shape(nodes, q)
    ensures Shape(Forget(nodes, p, n), q)
  {
    var f := Forget(nodes, p, n);
    forall x: Path, k: nat | IsOpen(f, Sub(x, k)) && Under(x, q)
      ensures x in f && k in f[x].channels && (x == q || IsOpen(f, x))
    {
      assert IsOpen(nodes, Sub(x, k));
    }
    forall x: Path, k: nat | x in f && Under(x, q) && k in f[x].channels ensures IsOpen(f, Sub(x, k)) {
      assert k in nodes[x].channels;
      assert IsOpen(nodes, Sub(x, k));
    }
  }

  lemma MarkThenForget(nodes: Nodes, q: Path, p: Path, n: nat, reason: ChannelError)
    requires p in nodes && q in nodes && p != q
    ensures Forget(nodes[q := nodes[q].(error := reason)], p, n)
         == Forget(nodes, p, n)[q := Forget(nodes, p, n)[q].(error := reason)]
  {
  }

  lemma DetachShape(nodes: Nodes, q: Path)
    requires q in nodes && Shape(nodes, q)
    ensures Shape(nodes[q := nodes[q].(attached := false)], q)
  {
    var f := nodes[q := nodes[q].(attached := false)];
    forall p: Path, n: nat | IsOpen(f, Sub(p, n)) && Under(p, q)
      ensures p in f && n in f[p].channels && (p == q || IsOpen(f, p))
    {
      assert IsOpen(nodes, Sub(p, n));
    }
    forall p: Path, n: nat | p in f && Under(p, q) && n in f[p].channels ensures IsOpen(f, Sub(p, n)) {
      assert n in nodes[p].channels;
      assert IsOpen(nodes, Sub(p, n));
    }
  }

  lemma DetachClose(nodes: Nodes, q: Path, reason: ChannelError)
    requires q in nodes && nodes[q].error == NoError
    ensures CloseUnder(nodes[q := nodes[q].(attached := false)], q, reason, false) == CloseUnder(nodes, q, reason, false)
  {
  }
}
