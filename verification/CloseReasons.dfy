/** With which error a channel ends: the first reason that reaches it, and that one for good. */
module CloseReasons {
  import opened Wire
  import opened ChannelTree
  import opened TreeInvariant
  import opened EndHistory
  import opened Routing
  import opened Multiplexer
  import opened Protocol
  import opened ProtocolTheorems

  /** Why channels close in this step. */
  function ReasonFor(n: Net, act: Action): ChannelError
    requires EnabledAtA(n, act)
  {
    match act
    case CloseSub(_) => UserShutdown
    case Shutdown(reason) => reason
    case DeliverOne => if WireSize(n.ba[0]) > n.a.conn.maxPayload then PacketTooLarge else RemotePeerClosedError
    case _ => NoError
  }

  /** The channel p is one of those that this step closes: the one that is closed, or named by an arriving DESTROY, and all below it, or all. */
  predicate Closes(n: Net, act: Action, p: Path)
    requires EnabledAtA(n, act)
  {
    match act
    case CloseSub(q) => Under(p, q)
    case Shutdown(_) => Open(n.a.conn, Root)
    case DeliverOne =>
      var m := n.ba[0];
      WireSize(m) > n.a.conn.maxPayload ||
      (m.body.DestroyChannel? && Open(n.a.conn, m.path) && Under(p, Sub(m.path, m.body.number)))
    case _ => false
  }

  /** Open channels end with the reason of the step, exactly those that it closes; a channel that has ended keeps its error. */
  predicate Reasoned(c: Conn, c1: Conn, p: Path, closes: bool, reason: ChannelError) {
    p in c.nodes ==> p in c1.nodes && c1.nodes[p].error == if c.nodes[p].error == NoError && closes then reason else c.nodes[p].error
  }

  lemma CloseReasoned(c: Conn, q: Path, reason: ChannelError, p: Path)
    requires q.Sub? && q.parent in c.nodes && Open(c, q)
    ensures Reasoned(c, Close(c, q, reason), p, Under(p, q), reason)
  {
  }

  lemma CloseAllReasoned(c: Conn, reason: ChannelError, p: Path)
    ensures Reasoned(c, CloseRoot(c, reason), p, Open(c, Root), reason)
  {
    UnderRoot(p);
  }

  lemma DestroyReasoned(c: Conn, m: Msg, p: Path)
    requires OpenShape(c) && Open(c, m.path) && m.body.DestroyChannel?
    ensures Reasoned(c, Handle(c, m), p, Under(p, Sub(m.path, m.body.number)), RemotePeerClosedError)
  {
    var q := Sub(m.path, m.body.number);
    if m.body.number !in c.nodes[m.path].channels && Open(c, p) && Under(p, q) {
      OpenAbove(c, p, q);
      assert false;
    }
  }

  lemma ArriveReasoned(e: End, m: Msg, p: Path)
    requires OpenShape(e.conn) && Open(e.conn, Root) && (m.body.MakeChannel? && Open(e.conn, m.path) ==> Sub(m.path, m.body.number) !in e.conn.nodes)
    ensures var closes := WireSize(m) > e.conn.maxPayload ||
                          (m.body.DestroyChannel? && Open(e.conn, m.path) && Under(p, Sub(m.path, m.body.number)));
      Reasoned(e.conn, Arrive(e, m).conn, p, closes, if WireSize(m) > e.conn.maxPayload then PacketTooLarge else RemotePeerClosedError)
  {
    if WireSize(m) > e.conn.maxPayload {
      CloseAllReasoned(e.conn, PacketTooLarge, p);
    } else if Open(e.conn, m.path) && m.body.DestroyChannel? {
      DestroyReasoned(e.conn, m, p);
    }
  }

  lemma MakeReasoned(e: End, q: Path, p: Path)
    requires Fresh(e.conn, q)
    ensures Reasoned(e.conn, MakeChannelAt(e, q).conn, p, false, NoError)
  {
  }

  lemma QuietReasoned(n: Net, act: Action, p: Path)
    requires EnabledAtA(n, act) && !act.MakeSub? && !act.CloseSub? && !act.Shutdown? && !act.DeliverOne?
    ensures Reasoned(n.a.conn, StepAtA(n, act).a.conn, p, false, NoError)
  {
  }

  lemma ActReasoned(n: Net, act: Action, p: Path)
    requires OpenShape(n.a.conn) && EnabledAtA(n, act)
    requires act.MakeSub? ==> Fresh(n.a.conn, act.path)
    requires act.DeliverOne? ==> var m := n.ba[0]; m.body.MakeChannel? && Open(n.a.conn, m.path) ==> Sub(m.path, m.body.number) !in n.a.conn.nodes
    ensures Reasoned(n.a.conn, StepAtA(n, act).a.conn, p, Closes(n, act, p), ReasonFor(n, act))
  {
    match act
    case CloseSub(q) => CloseReasoned(n.a.conn, q, UserShutdown, p);
    case Shutdown(reason) => CloseAllReasoned(n.a.conn, reason, p);
    case DeliverOne => ArriveReasoned(n.a, n.ba[0], p);
    case MakeSub(q) => MakeReasoned(n.a, q, p);
    case _ => QuietReasoned(n, act, p);
  }

  /** In every run: each step closes exactly the channels it is about, with its own reason, and no step changes the error of a channel that has
      ended. */
  lemma StepReasoned(n: Net, act: Action, p: Path)
    requires Reachable(n) && EnabledAtA(n, act)
    ensures Reasoned(n.a.conn, StepAtA(n, act).a.conn, p, Closes(n, act, p), ReasonFor(n, act))
  {
    ReachableInv(n);
    if act.MakeSub? { MakeIsFresh(n, act.path); }
    if act.DeliverOne? && n.ba[0].body.MakeChannel? && Open(n.a.conn, n.ba[0].path) {
      MakeConforms(n.b, n.ba, n.a, n.ba[0].path, n.ba[0].body.number);
    }
    ActReasoned(n, act, p);
  }

  // ---- The end of a byte stream ----

  /** Every frame can be handled. */
  predicate AllHandled(c: Conn, fs: seq<Frame>)
    decreases |fs|
  {
    fs == [] || (var (c1, ok) := HandleIncoming(c, Root, fs[0].number, fs[0].payload); ok && AllHandled(c1, fs[1..]))
  }

  /** The socket channel ends with the error that ended its stream, exactly when every frame before could be handled; otherwise with InvalidCommand. */
  lemma {:induction false} StreamEndsWith(c: Conn, fs: seq<Frame>, end: ChannelError)
    requires WellFormed(c) && Open(c, Root) && AllAcceptable(c, fs) && end != NoError
    ensures Root in c.nodes && Root in Arrivals(c, fs, end).nodes
    ensures Arrivals(c, fs, end).nodes[Root].error == if AllHandled(c, fs) then end else InvalidCommand
    decreases |fs|
  {
    if fs == [] {
      CloseAllReasoned(c, end, Root);
    } else {
      IncomingKeeps(c, Root, fs[0].number, fs[0].payload);
      var (c1, ok) := HandleIncoming(c, Root, fs[0].number, fs[0].payload);
      if ok {
        StreamEndsWith(c1, fs[1..], end);
      } else {
        CloseAllReasoned(c1, InvalidCommand, Root);
      }
    }
  }

  /** The frame goes down into the channel `number` of p. */
  predicate GoesDown(c: Conn, p: Path, number: nat, payload: Bytes) {
    p in c.nodes && number >= 2 && number in c.nodes[p].channels && |payload| >= 4
  }

  /** A frame that cannot be handled ends the channel into which it went down from p, and all below, with InvalidPacket, and nothing else; a frame that
      cannot be handled at p itself ends nothing yet. */
  lemma {:induction false} BadFrameReasoned(c: Conn, p: Path, number: nat, payload: Bytes, x: Path)
    requires Open(c, p) && !HandleIncoming(c, p, number, payload).1
    ensures Reasoned(c, HandleIncoming(c, p, number, payload).0, x, GoesDown(c, p, number, payload) && Under(x, Sub(p, number)), InvalidPacket)
    decreases |payload|
  {
    if GoesDown(c, p, number, payload) {
      var q, next, rest := Sub(p, number), UnpackU32(payload[..4]), payload[4..];
      var inner := HandleIncoming(c, q, next, rest).0;
      BadFrameReasoned(c, q, next, rest, x);
      BadFrameReasoned(c, q, next, rest, q);
      ParentAbove(Sub(q, next));
      BelowTwice(x, Sub(q, next));
      CloseReasoned(inner, q, InvalidPacket, x);
    }
  }

  lemma BelowTwice(x: Path, q: Path)
    requires q.Sub?
    ensures Under(x, q) ==> Under(x, q.parent)
  {
    if Under(x, q) { UnderParent(x, q); }
  }
}
