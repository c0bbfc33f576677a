/** Channels that the other end announces: each waits once in the pending queue, in the order of arrival, until it is taken or destroyed. */
module NewChannels {
  import opened Wire
  import opened ChannelTree
  import opened TreeInvariant
  import opened ChannelLog
  import opened EndHistory
  import opened EndChange
  import opened EndClose
  import opened Protocol
  import opened ProtocolTheorems

  /** The channel number n of p was taken, or destroyed by the other end. */
  predicate Settled(p: Path, n: nat, claimed: set<Path>, log: seq<Body>) { Sub(p, n) in claimed || DestroyChannel(n) in log }

  /** The numbers that the MAKE commands in l announce, in order, less those that are settled. */
  function Offered(p: Path, l: seq<Body>, claimed: set<Path>, log: seq<Body>): seq<nat> {
    if l == [] then []
    else
      var b := l[|l| - 1];
      Offered(p, l[..|l| - 1], claimed, log) + if b.MakeChannel? && !Settled(p, b.number, claimed, log) then [b.number] else []
  }

  /** What should wait in p's pending queue. */
  function Waiting(e: End, p: Path): seq<nat> {
    var log := Log(p, e.accepted);
    Offered(p, log, e.claimed, log)
  }

  ghost predicate PendingOf(e: End, p: Path) { Open(e.conn, p) ==> e.conn.nodes[p].pending == Waiting(e, p) }

  /** Only announced channels are ever taken. */
  ghost predicate ClaimOf(e: End, p: Path, n: nat) { Sub(p, n) in e.claimed ==> MakeChannel(n) in Log(p, e.accepted) }

  ghost predicate KeptAt(e: End, p: Path) { PendingOf(e, p) && forall n :: ClaimOf(e, p, n) }

  ghost predicate Kept(e: End) { forall p :: KeptAt(e, p) }

  function Dropped(s: seq<nat>, k: nat): seq<nat> {
    if s == [] then [] else Dropped(s[..|s| - 1], k) + if s[|s| - 1] == k then [] else [s[|s| - 1]]
  }

  lemma OfferedSnoc(p: Path, l: seq<Body>, b: Body, claimed: set<Path>, log: seq<Body>)
    ensures Offered(p, l + [b], claimed, log) ==
            Offered(p, l, claimed, log) + if b.MakeChannel? && !Settled(p, b.number, claimed, log) then [b.number] else []
  {
    assert (l + [b])[..|l|] == l;
  }

  lemma {:induction false} OfferedSame(p: Path, l: seq<Body>, claimed: set<Path>, log: seq<Body>, claimed1: set<Path>, log1: seq<Body>)
    requires forall n :: Settled(p, n, claimed1, log1) <==> Settled(p, n, claimed, log)
    ensures Offered(p, l, claimed1, log1) == Offered(p, l, claimed, log)
  {
    if l != [] { OfferedSame(p, l[..|l| - 1], claimed, log, claimed1, log1); }
  }

  lemma {:induction false} OfferedWithout(p: Path, l: seq<Body>, claimed: set<Path>, log: seq<Body>, claimed1: set<Path>, log1: seq<Body>, k: nat)
    requires forall n :: Settled(p, n, claimed1, log1) <==> Settled(p, n, claimed, log) || n == k
    ensures Offered(p, l, claimed1, log1) == Dropped(Offered(p, l, claimed, log), k)
  {
    if l != [] {
      var l1, b := l[..|l| - 1], l[|l| - 1];
      OfferedWithout(p, l1, claimed, log, claimed1, log1, k);
      var before := Offered(p, l1, claimed, log);
      if b.MakeChannel? && !Settled(p, b.number, claimed, log) {
        assert (before + [b.number])[..|before|] == before;
      } else {
        assert before + [] == before;
      }
    }
  }

  lemma {:induction false} OfferedIn(p: Path, l: seq<Body>, claimed: set<Path>, log: seq<Body>, k: nat)
    ensures k in Offered(p, l, claimed, log) <==> MakeChannel(k) in l && !Settled(p, k, claimed, log)
  {
    if l != [] {
      OfferedIn(p, l[..|l| - 1], claimed, log, k);
      assert l == l[..|l| - 1] + [l[|l| - 1]];
    }
  }

  lemma {:induction false} WithoutLast(s: seq<nat>, x: nat, k: nat)
    ensures Without(s + [x], k) == if k in s then Without(s, k) + [x] else if x == k then s else s + [x]
  {
    if s == [] {
      assert s + [x] == [x] && [x][1..] == [];
    } else {
      assert (s + [x])[1..] == s[1..] + [x] && s == [s[0]] + s[1..];
      WithoutLast(s[1..], x, k);
    }
  }

  lemma {:induction false} WithoutIsDropped(s: seq<nat>, k: nat)
    requires forall i, j :: 0 <= i < j < |s| ==> s[i] != s[j]
    ensures Without(s, k) == Dropped(s, k)
  {
    if s != [] {
      var s1, x := s[..|s| - 1], s[|s| - 1];
      assert s == s1 + [x];
      WithoutIsDropped(s1, k);
      WithoutLast(s1, x, k);
      if k in s1 {
        var i :| 0 <= i < |s1| && s1[i] == k;
        assert s[i] != x;
      } else {
        WithoutNothing(s1, k);
      }
    }
  }

  // ---- Steps ----

  /** A step that leaves p alone, but for a packet b on it that neither makes nor destroys. */
  ghost predicate Calm(e: End, e1: End, p: Path, b: seq<Body>) {
    && (Open(e1.conn, p) ==> Open(e.conn, p) && e1.conn.nodes[p].pending == e.conn.nodes[p].pending)
    && e1.claimed == e.claimed
    && Log(p, e1.accepted) == Log(p, e.accepted) + b && |b| <= 1 && (b == [] || QuietBody(b[0]))
  }

  lemma CalmKept(e: End, e1: End, p: Path, b: seq<Body>)
    requires KeptAt(e, p) && Calm(e, e1, p, b)
    ensures KeptAt(e1, p)
  {
    var l, l1 := Log(p, e.accepted), Log(p, e1.accepted);
    forall n ensures ClaimOf(e1, p, n) { assert ClaimOf(e, p, n); }
    if b == [] {
      assert l1 == l;
    } else {
      assert b == [b[0]];
      OfferedSnoc(p, l, b[0], e.claimed, l1);
      OfferedSame(p, l, e.claimed, l, e.claimed, l1);
    }
  }

  lemma SameIsCalm(e: End, e1: End, p: Path)
    requires e1.accepted == e.accepted && e1.claimed == e.claimed
    requires Open(e1.conn, p) ==> Open(e.conn, p) && e1.conn.nodes[p].pending == e.conn.nodes[p].pending
    ensures Calm(e, e1, p, [])
  {
    assert Log(p, e1.accepted) == Log(p, e.accepted) + [];
  }

  lemma SameKept(e: End, e1: End)
    requires Kept(e) && e1.accepted == e.accepted && e1.claimed == e.claimed
    requires forall p :: Open(e1.conn, p) ==> Open(e.conn, p) && e1.conn.nodes[p].pending == e.conn.nodes[p].pending
    ensures Kept(e1)
  {
    forall p ensures KeptAt(e1, p) {
      assert KeptAt(e, p);
      SameIsCalm(e, e1, p);
      CalmKept(e, e1, p, []);
    }
  }

  lemma HandledKept(e: End, m: Msg)
    requires Kept(e) && Open(e.conn, m.path) && QuietBody(m.body)
    ensures Kept(HandleAt(e, m))
  {
    var e1 := HandleAt(e, m);
    HandleShape(e, m);
    forall p ensures KeptAt(e1, p) {
      assert KeptAt(e, p);
      LogSnoc(p, e.accepted, m);
      var b := if m.path == p then [m.body] else [];
      assert Log(p, e1.accepted) == Log(p, e.accepted) + b;
      CalmKept(e, e1, p, b);
    }
  }

  /** k leaves what waits on p, because it is taken or destroyed. */
  lemma SettledKept(e: End, e1: End, p: Path, k: nat)
    requires PendingOf(e, p) && Open(e.conn, p) && PendingShape(e.conn.nodes[p])
    requires Open(e1.conn, p) ==> e1.conn.nodes[p].pending == Without(e.conn.nodes[p].pending, k)
    requires var l, l1 := Log(p, e.accepted), Log(p, e1.accepted);
      && (l1 == l || l1 == l + [DestroyChannel(k)])
      && forall n :: Settled(p, n, e1.claimed, l1) <==> Settled(p, n, e.claimed, l) || n == k
    ensures PendingOf(e1, p)
  {
    var l, l1 := Log(p, e.accepted), Log(p, e1.accepted);
    OfferedWithout(p, l, e.claimed, l, e1.claimed, l1, k);
    if l1 != l { OfferedSnoc(p, l, DestroyChannel(k), e1.claimed, l1); }
    WithoutIsDropped(e.conn.nodes[p].pending, k);
  }

  lemma TakeChannelKept(e: End, p: Path, k: nat)
    requires Kept(e) && WellFormed(e.conn) && Open(e.conn, p)
    ensures Kept(TakeChannelAt(e, p, k))
  {
    var e1 := TakeChannelAt(e, p, k);
    var pending := e.conn.nodes[p].pending;
    assert KeptAt(e, p);
    if k !in pending {
      WithoutNothing(pending, k);
      SameKept(e, e1);
    } else {
      OfferedIn(p, Log(p, e.accepted), e.claimed, Log(p, e.accepted), k);
      SettledKept(e, e1, p, k);
      forall q ensures KeptAt(e1, q) {
        assert KeptAt(e, q);
        forall n ensures ClaimOf(e1, q, n) { assert ClaimOf(e, q, n); }
        if q != p { OfferedSame(q, Log(q, e.accepted), e.claimed, Log(q, e.accepted), e1.claimed, Log(q, e.accepted)); }
      }
    }
  }

  lemma DestroyPending(e: End, p: Path, k: nat, q: Path)
    requires WellFormed(e.conn) && Open(e.conn, p)
    ensures var e1 := HandleAt(e, Msg(p, DestroyChannel(k)));
      && e1.claimed == e.claimed && e1.accepted == e.accepted + [Msg(p, DestroyChannel(k))]
      && (Open(e1.conn, q) ==>
            Open(e.conn, q) && e1.conn.nodes[q].pending == if q == p then Without(e.conn.nodes[p].pending, k) else e.conn.nodes[q].pending)
  {
    if k !in e.conn.nodes[p].channels {
      PendingInTable(e.conn, p, k);
      WithoutNothing(e.conn.nodes[p].pending, k);
    } else {
      ParentAbove(Sub(p, k));
    }
  }

  lemma DestroyKept(e: End, p: Path, k: nat)
    requires Kept(e) && WellFormed(e.conn) && Open(e.conn, p)
    ensures Kept(HandleAt(e, Msg(p, DestroyChannel(k))))
  {
    var m := Msg(p, DestroyChannel(k));
    var e1 := HandleAt(e, m);
    forall q ensures KeptAt(e1, q) {
      assert KeptAt(e, q);
      DestroyPending(e, p, k, q);
      LogSnoc(q, e.accepted, m);
      forall n ensures ClaimOf(e1, q, n) { assert ClaimOf(e, q, n); }
      if q == p { SettledKept(e, e1, p, k); }
    }
  }

  /** A channel that has just been announced is settled in no way. */
  lemma NewIsOpen(e: End, p: Path, k: nat)
    requires KidsKept(e) && DestroysKept(e) && Sub(p, k) !in e.conn.nodes && ClaimOf(e, p, k)
    ensures !Settled(p, k, e.claimed, Log(p, e.accepted)) && MakeChannel(k) !in Log(p, e.accepted)
  {
    assert KidOf(e, p, k) && DestroyOf(e, p, k);
  }

  lemma AnnouncedPending(e: End, p: Path, k: nat, q: Path)
    requires Open(e.conn, p) && Sub(p, k) !in e.conn.nodes
    ensures var e1 := HandleAt(e, Msg(p, MakeChannel(k)));
      && e1.claimed == e.claimed && e1.accepted == e.accepted + [Msg(p, MakeChannel(k))]
      && (Open(e1.conn, q) ==> if q == Sub(p, k) then e1.conn.nodes[q].pending == []
                               else Open(e.conn, q) && e1.conn.nodes[q].pending == e.conn.nodes[q].pending + if q == p then [k] else [])
  {
    ParentAbove(Sub(p, k));
    if q in e.conn.nodes { assert e.conn.nodes[q].pending + [] == e.conn.nodes[q].pending; }
  }

  lemma AnnouncedKept(e: End, p: Path, k: nat)
    requires Kept(e) && Family(e) && Open(e.conn, p) && Sub(p, k) !in e.conn.nodes
    ensures Kept(HandleAt(e, Msg(p, MakeChannel(k))))
  {
    var m := Msg(p, MakeChannel(k));
    var e1 := HandleAt(e, m);
    forall q ensures KeptAt(e1, q) {
      assert KeptAt(e, q) && KeptAt(e, p) && ClaimOf(e, p, k);
      AnnouncedPending(e, p, k, q);
      LogSnoc(q, e.accepted, m);
      forall n ensures ClaimOf(e1, q, n) { assert ClaimOf(e, q, n); }
      if q == p {
        NewIsOpen(e, p, k);
        var l := Log(p, e.accepted);
        OfferedSnoc(p, l, m.body, e.claimed, l + [m.body]);
        OfferedSame(p, l, e.claimed, l, e.claimed, l + [m.body]);
      } else if q == Sub(p, k) {
        assert Log(q, e.accepted) == [];
      }
    }
  }

  lemma MadeKept(e: End, p: Path)
    requires Kept(e) && LogsKnown(e) && Fresh(e.conn, p)
    ensures Kept(MakeChannelAt(e, p))
  {
    var e1 := MakeChannelAt(e, p);
    var q := Sub(p, e.conn.nodes[p].next);
    ParentAbove(q);
    forall x ensures KeptAt(e1, x) {
      assert KeptAt(e, x);
      if x == q {
        assert Log(q, e.accepted) == [];
      } else {
        SameIsCalm(e, e1, x);
      }
      forall n ensures ClaimOf(e1, x, n) { assert ClaimOf(e, x, n); }
    }
  }

  lemma CloseKept(e: End, q: Path)
    requires Kept(e) && MayClose(e.conn, q)
    ensures Kept(CloseAt(e, q))
  {
    SameKept(e, CloseAt(e, q));
  }

  lemma CloseAllKept(e: End, reason: ChannelError)
    requires Kept(e) && reason != NoError
    ensures Kept(CloseAll(e, reason))
  {
    SameKept(e, CloseAll(e, reason));
  }

  /** A MAKE that arrives names a number this end does not know. */
  predicate Unknown(e: End, m: Msg) {
    m.body.MakeChannel? && Open(e.conn, m.path) ==> Sub(m.path, m.body.number) !in e.conn.nodes
  }

  lemma ArriveKept(e: End, m: Msg)
    requires WellFormed(e.conn) && Family(e) && Kept(e) && Unknown(e, m)
    ensures Kept(Arrive(e, m))
  {
    if WireSize(m) > e.conn.maxPayload {
      CloseAllKept(e, PacketTooLarge);
    } else if Open(e.conn, m.path) {
      match m.body
      case MakeChannel(k) => AnnouncedKept(e, m.path, k);
      case DestroyChannel(k) => DestroyKept(e, m.path, k);
      case _ => HandledKept(e, m);
    }
  }

  /** What the invariant of both ends says about a step of one. */
  predicate Ready(n: Net, act: Action) {
    && (act.MakeSub? ==> Fresh(n.a.conn, act.path))
    && (act.DeliverOne? && n.ba != [] ==> Unknown(n.a, n.ba[0]))
  }

  lemma InvReady(n: Net, act: Action)
    requires Inv(n) && EnabledAtA(n, act)
    ensures Ready(n, act) && WellFormed(n.a.conn) && Family(n.a)
  {
    if act.MakeSub? { MakeIsFresh(n, act.path); }
    if act.DeliverOne? && n.ba[0].body.MakeChannel? && Open(n.a.conn, n.ba[0].path) {
      MakeConforms(n.b, n.ba, n.a, n.ba[0].path, n.ba[0].body.number);
    }
  }

  lemma PlainKept(n: Net, act: Action)
    requires EnabledAtA(n, act) && Kept(n.a)
    requires act.Send? || act.SendKeepalive? || act.LowerCapacity? || act.TransmitOne?
    ensures Kept(StepAtA(n, act).a)
  {
    SameKept(n.a, StepAtA(n, act).a);
  }

  lemma RecvKept(e: End, p: Path)
    requires Kept(e) && HasPacket(e.conn, p)
    ensures Kept(TakeAt(e, p))
  {
    TakeShape(e, p);
    SameKept(e, TakeAt(e, p));
  }

  lemma StepKept(n: Net, act: Action)
    requires EnabledAtA(n, act) && Ready(n, act) && WellFormed(n.a.conn) && Family(n.a) && Kept(n.a)
    ensures Kept(StepAtA(n, act).a)
  {
    match act
    case MakeSub(p) => MadeKept(n.a, p);
    case CloseSub(q) => CloseKept(n.a, q);
    case Recv(p) => RecvKept(n.a, p);
    case TakeSub(p, k) => TakeChannelKept(n.a, p, k);
    case DeliverOne => ArriveKept(n.a, n.ba[0]);
    case Shutdown(reason) => CloseAllKept(n.a, reason);
    case _ => PlainKept(n, act);
  }

  // ---- Runs ----

  lemma NewKept(e: End, positive: bool)
    requires FreshEnd(e, positive)
    ensures Kept(e)
  {
    forall p ensures KeptAt(e, p) {
      forall n ensures ClaimOf(e, p, n) {
      }
    }
  }

  ghost predicate BothKept(n: Net) { Kept(n.a) && Kept(n.b) }

  lemma InitKept(n: Net)
    requires Init(n)
    ensures BothKept(n)
  {
    NewKept(n.a, true);
    NewKept(n.b, false);
  }

  lemma ApplyKept(n: Net, ev: Event, n1: Net)
    requires Inv(n) && Enabled(n, ev) && BothKept(n) && n1 == Apply(n, ev)
    ensures BothKept(n1)
  {
    var here := if ev.atA then n else Swap(n);
    SwapInv(n);
    InvReady(here, ev.action);
    StepKept(here, ev.action);
    OtherStays(here, ev.action);
  }

  lemma RunStepKept(states: seq<Net>, events: seq<Event>, i: nat)
    requires Run(states, events) && i < |events| && BothKept(states[i])
    ensures BothKept(states[i + 1])
  {
    RunKeepsInv(states, events, i);
    ApplyKept(states[i], events[i], states[i + 1]);
  }

  lemma {:induction false} KeptRun(states: seq<Net>, events: seq<Event>, i: nat)
    requires Run(states, events) && i < |states|
    ensures BothKept(states[i])
  {
    if i == 0 {
      InitKept(states[0]);
    } else {
      KeptRun(states, events, i - 1);
      RunStepKept(states, events, i - 1);
    }
  }

  lemma OtherStays(n: Net, act: Action)
    requires EnabledAtA(n, act)
    ensures StepAtA(n, act).b == n.b
  {
  }

  lemma ReachableKept(n: Net)
    requires Reachable(n)
    ensures Kept(n.a) && Kept(n.b)
  {
    var states, events :| Run(states, events) && states[|states| - 1] == n;
    KeptRun(states, events, |states| - 1);
  }

  predicate EndOf(n: Net, e: End) { e == n.a || e == n.b }

  /** At both ends of every reachable net, the pending queue of an open channel is the announced numbers in the order of arrival, less those that were
      taken or destroyed. */
  lemma PendingExactly(n: Net, e: End, p: Path)
    requires Reachable(n) && EndOf(n, e) && Open(e.conn, p)
    ensures var log := Log(p, e.accepted); e.conn.nodes[p].pending == Offered(p, log, e.claimed, log)
  {
    ReachableKept(n);
    assert KeptAt(e, p);
  }

  /** An open channel that the other end announced waits to be taken or was taken, exactly one of these; a channel made here is neither. */
  lemma PendingOrClaimed(n: Net, e: End, p: Path, k: nat)
    requires Reachable(n) && EndOf(n, e) && Open(e.conn, p) && Open(e.conn, Sub(p, k))
    ensures e.conn.nodes[Sub(p, k)].positive ==> k !in e.conn.nodes[p].pending && Sub(p, k) !in e.claimed
    ensures !e.conn.nodes[Sub(p, k)].positive ==> (k in e.conn.nodes[p].pending <==> Sub(p, k) !in e.claimed)
  {
    ReachableKept(n);
    ReachableInv(n);
    assert KeptAt(e, p) && ClaimOf(e, p, k) && KidOf(e, p, k) && DestroyOf(e, p, k);
    OfferedIn(p, Log(p, e.accepted), e.claimed, Log(p, e.accepted), k);
  }

  /** The last of the pending channels is taken. */
  lemma TakeLast(e: End, p: Path, before: seq<nat>, k: nat)
    requires Open(e.conn, p) && e.conn.nodes[p].pending == before + [k] && k !in before
    ensures var e1 := TakeChannelAt(e, p, k);
      && Sub(p, k) in e1.claimed && e1.conn.nodes[p].pending == before
      && forall q :: q != p && q in e.conn.nodes ==> q in e1.conn.nodes && e1.conn.nodes[q] == e.conn.nodes[q]
  {
    WithoutLast(before, k, k);
    assert k in e.conn.nodes[p].pending;
  }

  lemma AnnouncedLast(e: End, p: Path, k: nat)
    requires Pendings(e.conn) && OpenShape(e.conn) && Open(e.conn, p) && Sub(p, k) !in e.conn.nodes && k !in e.conn.nodes[p].channels
    ensures var e1 := HandleAt(e, Msg(p, MakeChannel(k)));
      && Open(e1.conn, p) && e1.conn.nodes[p].pending == e.conn.nodes[p].pending + [k] && k !in e.conn.nodes[p].pending
      && Open(e1.conn, Sub(p, k)) && !e1.conn.nodes[Sub(p, k)].positive && Sub(p, k) != p
  {
    ParentAbove(Sub(p, k));
    AnnouncedPending(e, p, k, p);
    PendingInTable(e.conn, p, k);
  }

  /** A channel can be taken as soon as its MAKE has arrived: it stands last in the pending queue, and the take finds it. */
  lemma TakeAfterMake(n: Net, p: Path, k: nat)
    requires Reachable(n) && Open(n.a.conn, Root) && n.ba != [] && n.ba[0] == Msg(p, MakeChannel(k))
    requires Open(n.a.conn, p) && WireSize(n.ba[0]) <= n.a.conn.maxPayload
    ensures
      var e1 := StepAtA(n, DeliverOne).a;
      && Open(e1.conn, p) && e1.conn.nodes[p].pending == n.a.conn.nodes[p].pending + [k]
      && Open(e1.conn, Sub(p, k)) && !e1.conn.nodes[Sub(p, k)].positive
      && var e2 := TakeChannelAt(e1, p, k);
      && Sub(p, k) in e2.claimed && Open(e2.conn, Sub(p, k)) && e2.conn.nodes[p].pending == n.a.conn.nodes[p].pending
  {
    ReachableInv(n);
    InvReady(n, DeliverOne);
    assert k !in n.a.conn.nodes[p].channels;
    AnnouncedLast(n.a, p, k);
    TakeLast(HandleAt(n.a, n.ba[0]), p, n.a.conn.nodes[p].pending, k);
  }

  // ---- Capacities ----

  /** All channels of an end have one capacity, as long as none was changed. */
  ghost predicate OneCapacity(e: End) {
    Root in e.conn.nodes && (e.lowered == {} ==> forall p :: p in e.conn.nodes ==> e.conn.nodes[p].capacity == e.conn.nodes[Root].capacity)
  }

  lemma SameCapacity(e: End, e1: End)
    requires OneCapacity(e) && e1.conn.nodes.Keys == e.conn.nodes.Keys && (e1.lowered == {} ==> e.lowered == {})
    requires e1.lowered == {} ==> forall p :: p in e.conn.nodes ==> e1.conn.nodes[p].capacity == e.conn.nodes[p].capacity
    ensures OneCapacity(e1)
  {
  }

  lemma BirthCapacity(e: End, e1: End, p: Path, k: nat, made: bool)
    requires OneCapacity(e) && Birth(e, e1, p, k, made)
    ensures OneCapacity(e1)
  {
  }

  lemma ArriveCapacity(e: End, m: Msg)
    requires Unknown(e, m) && OneCapacity(e)
    ensures OneCapacity(Arrive(e, m))
  {
    if WireSize(m) > e.conn.maxPayload {
      SameCapacity(e, Arrive(e, m));
    } else if Open(e.conn, m.path) {
      match m.body
      case MakeChannel(k) =>
        AnnounceIsBirth(e, m.path, k);
        BirthCapacity(e, HandleAt(e, m), m.path, k, false);
      case DestroyChannel(k) => SameCapacity(e, HandleAt(e, m));
      case _ =>
        HandleShape(e, m);
        SameCapacity(e, HandleAt(e, m));
    }
  }

  lemma MakeCapacity(e: End, p: Path)
    requires Fresh(e.conn, p) && OneCapacity(e)
    ensures OneCapacity(MakeChannelAt(e, p))
  {
    MakeIsBirth(e, p);
    BirthCapacity(e, MakeChannelAt(e, p), p, e.conn.nodes[p].next, true);
  }

  lemma PlainCapacity(n: Net, act: Action)
    requires EnabledAtA(n, act) && OneCapacity(n.a)
    requires !act.MakeSub? && !act.Recv? && !act.DeliverOne? && !act.LowerCapacity?
    ensures OneCapacity(StepAtA(n, act).a)
  {
    SameCapacity(n.a, StepAtA(n, act).a);
  }

  lemma RecvCapacity(e: End, p: Path)
    requires OneCapacity(e) && HasPacket(e.conn, p)
    ensures OneCapacity(TakeAt(e, p))
  {
    TakeShape(e, p);
    SameCapacity(e, TakeAt(e, p));
  }

  lemma StepCapacity(n: Net, act: Action)
    requires EnabledAtA(n, act) && Ready(n, act) && OneCapacity(n.a)
    ensures OneCapacity(StepAtA(n, act).a)
  {
    match act
    case MakeSub(p) => MakeCapacity(n.a, p);
    case Recv(p) => RecvCapacity(n.a, p);
    case DeliverOne => ArriveCapacity(n.a, n.ba[0]);
    case LowerCapacity(p, c) => assert p in LowerAt(n.a, p, c).lowered;
    case _ => PlainCapacity(n, act);
  }

  lemma ApplyCapacity(n: Net, ev: Event)
    requires Inv(n) && Enabled(n, ev) && OneCapacity(n.a) && OneCapacity(n.b)
    ensures OneCapacity(Apply(n, ev).a) && OneCapacity(Apply(n, ev).b)
  {
    var here := if ev.atA then n else Swap(n);
    SwapInv(n);
    InvReady(here, ev.action);
    StepCapacity(here, ev.action);
    OtherStays(here, ev.action);
  }

  /** A channel begins with the capacity of its parent: in every run, until a capacity is changed, every channel of an end has that of its root. */
  lemma {:induction false} CapacityRun(states: seq<Net>, events: seq<Event>, i: nat)
    requires Run(states, events) && i < |states|
    ensures OneCapacity(states[i].a) && OneCapacity(states[i].b)
  {
    if i > 0 {
      CapacityRun(states, events, i - 1);
      RunKeepsInv(states, events, i - 1);
      assert states[i - 1 + 1] == Apply(states[i - 1], events[i - 1]);
      ApplyCapacity(states[i - 1], events[i - 1]);
    }
  }
}
