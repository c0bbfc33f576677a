/** When the handling of a packet is over, and what is then true of the sub-channel it named; which kills break that. */
module RpcPeerHandling {
  import opened Wire
  import opened RpcPeer
  import opened RpcPeerTheorems
  import opened RpcPeerChannels

  /** A sub-channel whose packet has been handled is not pending, and no announcement of it can come any more. */
  ghost predicate HandledOk(s: State, n: nat) {
    n in s.handled ==> n != 0 && n in s.brought && (s.rpcAlive ==> n !in s.pending)
  }

  /** Handlers work on packets that were brought here. */
  ghost predicate HandlersBrought(s: State) {
    forall h :: h in s.handlers ==> s.handlers[h].request.channel in s.brought
  }

  /** n is named by a packet that is queued or being handled here. */
  ghost predicate Here(s: State, n: nat) { InInbox(s.inbox, n) || HeldByHandler(s, n) || HeldByCall(s, n) }

  // ---- No waiter is left behind by a harmless kill ----

  lemma NoneDeadCall(s: State, e: Event)
    requires Core(s) && NoneDead(s) && Enabled(s, e) && (e.Kill? ==> HarmlessKill(s, e.c))
    requires e.Begin? || e.Fail? || e.Send? || e.Sent? || e.Kill? || e.Resume?
    ensures Apply(s, e).rpcAlive ==> NoneDead(Apply(s, e))
  {
    var s1 := Apply(s, e);
    forall id | id in s1.waiters && s1.waiters[id] in s1.calls && s1.rpcAlive ensures Outstanding(s1.calls[s1.waiters[id]]) {
      assert TableOk(s, id);
      if e.Fail? || e.Send? || e.Kill? { assert TableOk(s, s.calls[e.c].id); }
    }
  }

  lemma NoneDeadSame(s: State, s1: State)
    requires NoneDead(s)
    requires forall id :: id in s1.waiters ==> id in s.waiters && s1.waiters[id] == s.waiters[id]
    requires forall c :: c in s1.calls ==> c in s.calls && s1.calls[c].phase == s.calls[c].phase
    ensures NoneDead(s1)
  {
  }

  lemma NoneDeadOutside(s: State, e: Event)
    requires NoneDead(s) && Enabled(s, e) && (e.PeerAnnounce? || e.PeerSend? || e.PeerClose? || e.Deliver? || e.Lost?)
    ensures NoneDead(Apply(s, e))
  {
    NoneDeadSame(s, Apply(s, e));
  }

  lemma NoneDeadReceive(s: State, h: nat)
    requires NoneDead(s) && s.inbox != []
    ensures NoneDead(ReceivePacket(s, h))
  {
    NoneDeadSame(s, ReceivePacket(s, h));
  }

  lemma NoneDeadStep(s: State, e: Event)
    requires Core(s) && HandlersOk(s) && NoneDead(s) && Enabled(s, e) && (e.Kill? ==> HarmlessKill(s, e.c))
    ensures Apply(s, e).rpcAlive ==> NoneDead(Apply(s, e))
  {
    match e
    case Receive(h) => NoneDeadReceive(s, h);
    case Handle(h, choice) =>
      HandlerFrame(s, h, choice);
      NoneDeadSame(s, HandlerGo(s, h, choice));
    case KillHandler(h) => NoneDeadSame(s, EndHandler(s, h));
    case RpcGone =>
    case _ =>
      if e.PeerAnnounce? || e.PeerSend? || e.PeerClose? || e.Deliver? || e.Lost? {
        NoneDeadOutside(s, e);
      } else {
        NoneDeadCall(s, e);
      }
  }

  // ---- Handled for good ----

  /** What a call holds was brought here. */
  lemma SlotBrought(s: State, c: nat)
    requires Core(s) && Traffic(s) && c in s.calls
    ensures SlotNumber(s.calls[c]) == 0 || SlotNumber(s.calls[c]) in s.brought
  {
    assert CallOk(s, c);
    if s.calls[c].slot.Some? { assert GoodReceived(s, s.calls[c].slot.value); }
  }

  /** Only these components matter. */
  lemma HandledSame(s: State, s1: State, n: nat)
    requires HandledOk(s, n) && s.brought <= s1.brought
    requires s1.rpcAlive ==> s.rpcAlive
    requires n in s1.handled ==> n in s.handled || (n != 0 && n in s1.brought && n !in s1.pending)
    requires n in s1.pending ==> n in s.pending || n !in s.handled
    ensures HandledOk(s1, n)
  {
  }

  lemma HandledCall(s: State, e: Event, n: nat)
    requires Core(s) && Traffic(s) && HandledOk(s, n) && Enabled(s, e) && (e.Kill? ==> HarmlessKill(s, e.c))
    requires e.Begin? || e.Fail? || e.Send? || e.Kill?
    ensures HandledOk(Apply(s, e), n)
  {
    if e.Kill? { SlotBrought(s, e.c); }
    if e.Fail? || e.Send? || e.Kill? { assert CallOk(s, e.c); }
    HandledSame(s, Apply(s, e), n);
  }

  lemma HandledSent(s: State, c: nat, success: bool, n: nat)
    requires Core(s) && Traffic(s) && HandledOk(s, n) && c in s.calls && s.calls[c].phase.Sending?
    ensures HandledOk(SentCall(s, c, success), n)
  {
    SlotBrought(s, c);
    assert CallOk(s, c);
  }

  lemma HandledResume(s: State, c: nat, n: nat)
    requires Core(s) && Traffic(s) && HandledOk(s, n) && Enabled(s, Resume(c))
    ensures HandledOk(ResumeCall(s, c), n)
  {
    SlotBrought(s, c);
    assert CallOk(s, c);
    assert GoodReceived(s, s.calls[c].slot.value);
  }

  lemma HandledReceive(s: State, h: nat, n: nat)
    requires Core(s) && Traffic(s) && (s.rpcAlive ==> NoneDead(s)) && HandledOk(s, n) && s.inbox != []
    ensures HandledOk(ReceivePacket(s, h), n)
  {
    var s1 := ReceivePacket(s, h);
    assert NumberIn(s.inbox[0]) in s.brought;
    if s.rpcAlive && !s.broken && s.inbox[0].Answer? && ResponseOk(s.inbox[0].response) && s.inbox[0].response.id in s.waiters {
      AnswerHeld(s, h, s.inbox[0].response);
    }
    HandledSame(s, s1, n);
  }

  lemma HandledTurn(s: State, s1: State, h: nat, n: nat)
    requires HandledOk(s, n) && HandlersBrought(s) && h in s.handlers && Handled(s, s1, h)
    ensures HandledOk(s1, n) && HandlersBrought(s1)
  {
    HandledSame(s, s1, n);
  }

  lemma HandledDeliver(s: State, n: nat)
    requires Traffic(s) && HandledOk(s, n) && s.wire != []
    ensures HandledOk(DeliverItem(s), n)
  {
    assert Placed(s, n);
    HandledSame(s, DeliverItem(s), n);
  }

  lemma HandledStep(s: State, e: Event, n: nat)
    requires Core(s) && HandlersOk(s) && Traffic(s) && HandlersBrought(s) && HandledOk(s, n) && Enabled(s, e)
    requires s.rpcAlive ==> NoneDead(s)
    requires e.Kill? ==> HarmlessKill(s, e.c)
    ensures HandledOk(Apply(s, e), n)
  {
    match e
    case Receive(h) => HandledReceive(s, h, n);
    case Handle(h, choice) =>
      HandlerFrame(s, h, choice);
      HandledTurn(s, HandlerGo(s, h, choice), h, n);
    case KillHandler(h) =>
      EndFrame(s, s, h);
      HandledTurn(s, EndHandler(s, h), h, n);
    case Deliver => HandledDeliver(s, n);
    case Resume(c) => HandledResume(s, c, n);
    case Sent(c, success) => HandledSent(s, c, success, n);
    case Lost => HandledSame(s, Shutdown(s), n);
    case RpcGone => HandledSame(s, Apply(s, e), n);
    case PeerAnnounce(_) => HandledSame(s, Apply(s, e), n);
    case PeerSend(_) => HandledSame(s, Apply(s, e), n);
    case PeerClose(_) => HandledSame(s, Apply(s, e), n);
    case _ => HandledCall(s, e, n);
  }

  lemma BroughtSame(s: State, s1: State)
    requires HandlersBrought(s) && s.brought <= s1.brought
    requires forall h :: h in s1.handlers ==>
               (h in s.handlers && s1.handlers[h].request == s.handlers[h].request) || s1.handlers[h].request.channel in s1.brought
    ensures HandlersBrought(s1)
  {
  }

  lemma BroughtCall(s: State, e: Event)
    requires HandlersBrought(s) && Enabled(s, e) && (e.Begin? || e.Fail? || e.Send? || e.Kill?)
    ensures HandlersBrought(Apply(s, e))
  {
    BroughtSame(s, Apply(s, e));
  }

  lemma BroughtOutside(s: State, e: Event)
    requires HandlersBrought(s) && Enabled(s, e)
    requires e.PeerAnnounce? || e.PeerSend? || e.PeerClose? || e.Deliver? || e.Lost? || e.RpcGone?
    ensures HandlersBrought(Apply(s, e))
  {
    BroughtSame(s, Apply(s, e));
  }

  lemma BroughtReceive(s: State, h: nat)
    requires Traffic(s) && HandlersBrought(s) && s.inbox != []
    ensures HandlersBrought(ReceivePacket(s, h))
  {
    assert NumberIn(s.inbox[0]) in s.brought;
    BroughtSame(s, ReceivePacket(s, h));
  }

  lemma BroughtSent(s: State, c: nat, success: bool)
    requires HandlersBrought(s) && c in s.calls
    ensures HandlersBrought(SentCall(s, c, success))
  {
    BroughtSame(s, SentCall(s, c, success));
  }

  lemma BroughtResume(s: State, c: nat)
    requires HandlersBrought(s) && c in s.calls && s.calls[c].slot.Some?
    ensures HandlersBrought(ResumeCall(s, c))
  {
    BroughtSame(s, ResumeCall(s, c));
  }

  lemma BroughtTurn(s: State, s1: State, h: nat)
    requires HandlersBrought(s) && h in s.handlers && Handled(s, s1, h)
    ensures HandlersBrought(s1)
  {
    BroughtSame(s, s1);
  }

  lemma BroughtStep(s: State, e: Event)
    requires HandlersOk(s) && Traffic(s) && HandlersBrought(s) && Enabled(s, e)
    ensures HandlersBrought(Apply(s, e))
  {
    match e
    case Receive(h) => BroughtReceive(s, h);
    case Handle(h, choice) =>
      HandlerFrame(s, h, choice);
      BroughtTurn(s, HandlerGo(s, h, choice), h);
    case KillHandler(h) =>
      EndFrame(s, s, h);
      BroughtTurn(s, EndHandler(s, h), h);
    case Resume(c) => BroughtResume(s, c);
    case Sent(c, success) => BroughtSent(s, c, success);
    case _ => if e.Begin? || e.Fail? || e.Send? || e.Kill? { BroughtCall(s, e); } else { BroughtOutside(s, e); }
  }

  // ---- Orderly runs ----

  ghost predicate OrderlyInv(s: State) {
    && Inv(s) && Traffic(s) && HandlersBrought(s)
    && (s.rpcAlive ==> NoneDead(s))
    && (forall n: nat :: HandledOk(s, n))
    && (s.rpcAlive ==> forall n: nat :: NumberOk(s, n))
  }

  lemma OrderlyStep(s: State, e: Event)
    requires OrderlyInv(s) && Enabled(s, e) && OrderlyEvent(s, e)
    ensures OrderlyInv(Apply(s, e))
  {
    var s1 := Apply(s, e);
    InvStep(s, e);
    TrafficStep(s, e);
    BroughtStep(s, e);
    if s.rpcAlive { NoneDeadStep(s, e); }
    forall n: nat ensures HandledOk(s1, n) {
      assert HandledOk(s, n);
      HandledStep(s, e, n);
    }
    forall n: nat ensures s1.rpcAlive ==> NumberOk(s1, n) {
      assert s.rpcAlive ==> NumberOk(s, n);
      NumberStep(s, e, n);
    }
  }

  lemma {:induction false} OrderlyAlways(s: State, events: seq<Event>)
    requires OrderlyInv(s) && Allowed(s, events) && Orderly(s, events)
    ensures OrderlyInv(Run(s, events))
    decreases |events|
  {
    if events != [] {
      OrderlyStep(s, events[0]);
      OrderlyAlways(Apply(s, events[0]), events[1..]);
    }
  }

  /** The states of the runs in which the other side conforms and every kill is harmless. */
  ghost predicate OrderlyReachable(s: State) {
    exists events :: Allowed(Init(), events) && Orderly(Init(), events) && Run(Init(), events) == s
  }

  lemma OrderlyReachableInv(s: State)
    requires OrderlyReachable(s)
    ensures OrderlyInv(s)
  {
    var events :| Allowed(Init(), events) && Orderly(Init(), events) && Run(Init(), events) == s;
    OrderlyAlways(Init(), events);
  }

  /** A pending sub-channel always has somebody who will claim or close it. */
  lemma PendingIsExplained(s: State, n: nat)
    requires OrderlyReachable(s) && n in s.pending && s.rpcAlive
    ensures Explained(s, n)
  {
    OrderlyReachableInv(s);
    assert NumberOk(s, n);
  }

  /** So when the other side owes nothing, nothing is on the way, and no handler or call is under way, nothing is pending: no leak. */
  lemma NoPendingLeak(s: State)
    requires OrderlyReachable(s) && (s.rpcAlive || s.broken)
    requires s.owed == {} && s.wire == [] && s.inbox == [] && s.handlers == map[]
    requires forall c :: c in s.calls ==> !Outstanding(s.calls[c])
    ensures s.pending == {}
  {
    OrderlyReachableInv(s);
    if !s.broken {
      forall n: nat ensures n !in s.pending { assert NumberOk(s, n); }
    }
  }

  lemma {:induction false} HandledGrows(s: State, events: seq<Event>, n: nat)
    requires OrderlyInv(s) && Allowed(s, events) && Orderly(s, events) && n in s.handled
    ensures n in Run(s, events).handled
    decreases |events|
  {
    if events != [] {
      OrderlyStep(s, events[0]);
      HandledStays(s, events[0], n);
      HandledGrows(Apply(s, events[0]), events[1..], n);
    }
  }

  lemma HandledStays(s: State, e: Event, n: nat)
    requires HandlersOk(s) && Enabled(s, e) && n in s.handled
    ensures n in Apply(s, e).handled
  {
    if e.Handle? {
      HandlerFrame(s, e.h, e.choice);
      assert s.handled <= HandlerGo(s, e.h, e.choice).handled;
    }
  }

  /** Once the handling of a packet that names n has ended, n is not pending, then and in every later state. */
  lemma NeverPendingAgain(s: State, events: seq<Event>, n: nat)
    requires OrderlyReachable(s) && n in s.handled && Allowed(s, events) && Orderly(s, events) && Run(s, events).rpcAlive
    ensures n !in Run(s, events).pending
  {
    OrderlyReachableInv(s);
    OrderlyAlways(s, events);
    HandledGrows(s, events, n);
    assert HandledOk(Run(s, events), n);
  }

  // ---- The end of a handling ----

  /** Still here, or handled. */
  ghost predicate Accounted(s: State, n: nat) { Here(s, n) || n in s.handled }

  lemma HereMoves(s: State, s1: State, n: nat)
    requires forall i :: 0 <= i < |s.inbox| && NumberIn(s.inbox[i]) == n ==> Accounted(s1, n)
    requires forall h :: h in s.handlers && s.handlers[h].request.channel == n ==> Accounted(s1, n)
    requires forall c :: c in s.calls && Holds(s.calls[c], n) ==> Accounted(s1, n)
    ensures Here(s, n) ==> Accounted(s1, n)
  {
  }

  lemma InboxStays(s: State, s1: State, n: nat)
    requires s.inbox <= s1.inbox
    ensures forall i :: 0 <= i < |s.inbox| && NumberIn(s.inbox[i]) == n ==> Accounted(s1, n)
  {
    forall i | 0 <= i < |s.inbox| && NumberIn(s.inbox[i]) == n ensures Accounted(s1, n) {
      assert s1.inbox[i] == s.inbox[i];
    }
  }

  lemma HandlersStay(s: State, s1: State, n: nat)
    requires forall h :: h in s.handlers ==> h in s1.handlers && s1.handlers[h].request == s.handlers[h].request
    ensures forall h :: h in s.handlers && s.handlers[h].request.channel == n ==> Accounted(s1, n)
  {
  }

  /** A call stays as it is, goes on holding n, or ends with n handled. */
  lemma CallStays(s: State, s1: State, c: nat, n: nat)
    requires c in s1.calls && (Holds(s1.calls[c], n) || n in s1.handled)
    ensures Accounted(s1, n)
  {
  }

  lemma CallsStay(s: State, s1: State, n: nat)
    requires forall c :: c in s.calls ==> c in s1.calls && s1.calls[c] == s.calls[c]
    ensures forall c :: c in s.calls && Holds(s.calls[c], n) ==> Accounted(s1, n)
  {
    forall c | c in s.calls && Holds(s.calls[c], n) ensures Accounted(s1, n) { CallStays(s, s1, c, n); }
  }

  lemma CallMoves(s: State, e: Event, n: nat)
    requires Enabled(s, e) && n != 0 && Here(s, n) && !Apply(s, e).broken
    requires e.Begin? || e.Fail? || e.Send?
    ensures Accounted(Apply(s, e), n)
  {
    var s1 := Apply(s, e);
    InboxStays(s, s1, n);
    HandlersStay(s, s1, n);
    forall c | c in s.calls && Holds(s.calls[c], n) ensures Accounted(s1, n) { CallStays(s, s1, c, n); }
    HereMoves(s, s1, n);
  }

  lemma KillMoves(s: State, c: nat, n: nat)
    requires c in s.calls && n != 0 && Here(s, n)
    ensures Accounted(KillCall(s, c), n)
  {
    var s1 := KillCall(s, c);
    InboxStays(s, s1, n);
    HandlersStay(s, s1, n);
    forall d | d in s.calls && Holds(s.calls[d], n) ensures Accounted(s1, n) { CallStays(s, s1, d, n); }
    HereMoves(s, s1, n);
  }

  lemma SentMoves(s: State, c: nat, success: bool, n: nat)
    requires c in s.calls && s.calls[c].phase.Sending? && n != 0 && Here(s, n) && !SentCall(s, c, success).broken
    ensures Accounted(SentCall(s, c, success), n)
  {
    var s1 := SentCall(s, c, success);
    InboxStays(s, s1, n);
    HandlersStay(s, s1, n);
    forall d | d in s.calls && Holds(s.calls[d], n) ensures Accounted(s1, n) { CallStays(s, s1, d, n); }
    HereMoves(s, s1, n);
  }

  lemma ResumeMoves(s: State, c: nat, n: nat)
    requires c in s.calls && s.calls[c].slot.Some? && n != 0 && Here(s, n)
    ensures Accounted(ResumeCall(s, c), n)
  {
    var s1 := ResumeCall(s, c);
    InboxStays(s, s1, n);
    HandlersStay(s, s1, n);
    forall d | d in s.calls && Holds(s.calls[d], n) ensures Accounted(s1, n) { CallStays(s, s1, d, n); }
    HereMoves(s, s1, n);
  }

  lemma TurnMoves(s: State, s1: State, h: nat, n: nat)
    requires h in s.handlers && Handled(s, s1, h) && n != 0 && Here(s, n)
    ensures Accounted(s1, n)
  {
    InboxStays(s, s1, n);
    CallsStay(s, s1, n);
    forall k | k in s.handlers && s.handlers[k].request.channel == n ensures Accounted(s1, n) {
      assert k in s1.handlers || n in s1.handled;
    }
    HereMoves(s, s1, n);
  }

  /** The first packet of the inbox: it starts a handler, wakes a call, or is handled at once. */
  lemma FirstMoves(s: State, h: nat, n: nat)
    requires s.inbox != [] && !Cut(s) && n != 0 && NumberIn(s.inbox[0]) == n
    ensures Accounted(ReceivePacket(s, h), n)
  {
    var s1 := ReceivePacket(s, h);
    match s.inbox[0]
    case Ask(r) => if RequestOk(r) { assert h in s1.handlers && s1.handlers[h].request == r; }
    case Answer(r) =>
      if ResponseOk(r) && r.id in s.waiters && s.waiters[r.id] in s.calls { CallStays(s, s1, s.waiters[r.id], n); }
  }

  lemma PacketMoves(s: State, h: nat, n: nat)
    requires s.inbox != [] && h !in s.handlers && n != 0 && Here(s, n) && !Cut(s)
    ensures Accounted(ReceivePacket(s, h), n)
  {
    var s1 := ReceivePacket(s, h);
    forall i | 0 <= i < |s.inbox| && NumberIn(s.inbox[i]) == n ensures Accounted(s1, n) {
      if i == 0 { FirstMoves(s, h, n); } else { assert s1.inbox[i - 1] == s.inbox[i]; }
    }
    HandlersStay(s, s1, n);
    forall c | c in s.calls && Holds(s.calls[c], n) ensures Accounted(s1, n) { CallStays(s, s1, c, n); }
    HereMoves(s, s1, n);
  }

  lemma OutsideMoves(s: State, e: Event, n: nat)
    requires Enabled(s, e) && n != 0 && Here(s, n)
    requires e.PeerAnnounce? || e.PeerSend? || e.PeerClose? || e.Deliver? || e.RpcGone?
    ensures Accounted(Apply(s, e), n)
  {
    InboxStays(s, Apply(s, e), n);
    HandlersStay(s, Apply(s, e), n);
    CallsStay(s, Apply(s, e), n);
    HereMoves(s, Apply(s, e), n);
  }

  /** A packet that names n and is queued here, in the hands of a handler, or of a call, is so until its handling has ended: nothing loses it, in any
      run at all, as long as the peer is not shut down. */
  lemma UntilHandled(s: State, e: Event, n: nat)
    requires Inv(s) && Enabled(s, e) && n != 0 && Here(s, n) && !Apply(s, e).broken
    ensures Here(Apply(s, e), n) || n in Apply(s, e).handled
  {
    match e
    case Receive(h) => if !Cut(s) { PacketMoves(s, h, n); }
    case Handle(h, choice) =>
      HandlerFrame(s, h, choice);
      TurnMoves(s, HandlerGo(s, h, choice), h, n);
    case KillHandler(h) =>
      EndFrame(s, s, h);
      TurnMoves(s, EndHandler(s, h), h, n);
    case Sent(c, success) => SentMoves(s, c, success, n);
    case Resume(c) => ResumeMoves(s, c, n);
    case Kill(c) => KillMoves(s, c, n);
    case Lost =>
    case _ => if e.Begin? || e.Fail? || e.Send? { CallMoves(s, e, n); } else { OutsideMoves(s, e, n); }
  }

  // ---- Which kills are harmless ----

  /** A response with this identifier would find somebody to claim its sub-channel: the receive loop, when nobody is in the table, or a call that has
      not ended. */
  predicate Attended(s: State, id: Id) {
    id in s.waiters && s.waiters[id] in s.calls ==> Outstanding(s.calls[s.waiters[id]])
  }

  /** The sub-channel of r is no longer pending, or a call that has not ended holds it. */
  predicate CaredFor(s: State, r: Response) {
    r.channel !in s.pending || (r.id in s.waiters && s.waiters[r.id] in s.calls && Holds(s.calls[s.waiters[r.id]], r.channel))
  }

  /** What being attended means for the next response. */
  lemma AttendedMeans(s: State, h: nat, r: Response)
    requires !Cut(s) && s.inbox != [] && s.inbox[0] == Answer(r) && ResponseOk(r) && r.channel != 0 && r.channel in s.pending
    ensures CaredFor(ReceivePacket(s, h), r) <==> Attended(s, r.id)
  {
  }

  /** A kill leaves nobody's sub-channel behind, neither that of a response which has come nor that of any which may still come, exactly when it is
      harmless. */
  lemma KillLeavesOwner(s: State, c: nat)
    requires Inv(s) && !Cut(s) && Enabled(s, Kill(c))
    ensures var s1 := KillCall(s, c);
      Attended(s1, s.calls[c].id) && !PendingSlot(s1, s1.calls[c]) <==> HarmlessKill(s, c)
  {
    var id := s.calls[c].id;
    assert CallOk(s, c) && TableOk(s, id);
    if id in s.waiters { assert SameId(s, c, s.waiters[id]); }
  }

  // ---- What the other kills lead to ----

  predicate ConformingRun(s: State, events: seq<Event>)
    requires Allowed(s, events)
    decreases |events|
  {
    events == [] || (Conforms(s, events[0]) && ConformingRun(Apply(s, events[0]), events[1..]))
  }

  lemma FirstStep(s: State, s1: State, e: Event, rest: seq<Event>)
    requires Enabled(s, e) && Conforms(s, e) && Apply(s, e) == s1 && Allowed(s1, rest) && ConformingRun(s1, rest)
    ensures Allowed(s, [e] + rest) && ConformingRun(s, [e] + rest) && Run(s, [e] + rest) == Run(s1, rest)
  {
    assert ([e] + rest)[1..] == rest;
  }

  lemma FiveSteps(s0: State, s1: State, s2: State, s3: State, s4: State, s5: State, e0: Event, e1: Event, e2: Event, e3: Event, e4: Event)
    requires Enabled(s0, e0) && Conforms(s0, e0) && Apply(s0, e0) == s1 && Enabled(s1, e1) && Conforms(s1, e1) && Apply(s1, e1) == s2
    requires Enabled(s2, e2) && Conforms(s2, e2) && Apply(s2, e2) == s3 && Enabled(s3, e3) && Conforms(s3, e3) && Apply(s3, e3) == s4
    requires Enabled(s4, e4) && Conforms(s4, e4) && Apply(s4, e4) == s5
    ensures var events := [e0, e1, e2, e3, e4]; Allowed(s0, events) && ConformingRun(s0, events) && Run(s0, events) == s5
  {
    FirstStep(s4, s5, e4, []);
    FirstStep(s3, s4, e3, [e4]);
    FirstStep(s2, s3, e2, [e3, e4]);
    FirstStep(s1, s2, e1, [e2, e3, e4]);
    FirstStep(s0, s1, e0, [e1, e2, e3, e4]);
    assert [e4] + [] == [e4] && [e3] + [e4] == [e3, e4] && [e2] + [e3, e4] == [e2, e3, e4];
    assert [e1] + [e2, e3, e4] == [e1, e2, e3, e4] && [e0] + [e1, e2, e3, e4] == [e0, e1, e2, e3, e4];
  }

  /** n is pending although its packet has been handled, and nobody is left who could claim it. */
  ghost predicate Leaked(s: State, n: nat) { n in s.pending && n in s.handled && !Explained(s, n) }

  function StreamFor(id: Id, n: nat): Response { Response(id, Some(Value(0, true)), None, n) }

  /** The response that comes after its call was killed in the middle of its send. */
  function LateAnswer(id: Id, n: nat, h: nat): seq<Event> {
    [PeerAnnounce(n), PeerSend(Answer(StreamFor(id, n))), Deliver, Deliver, Receive(h)]
  }

  /** The killed call has ended, its waiter is still in the table, and the announcement and the response are on the wire. */
  ghost predicate Abandoned(s: State, c: nat, n: nat) {
    && c in s.calls && s.calls[c].phase.Ended? && s.calls[c].id != "" && InTable(s, c) && !Cut(s)
    && !HeldByHandler(s, n) && !HeldByCall(s, n) && n != 0
  }

  lemma LateAnswerSent(s: State, c: nat, n: nat)
    requires Abandoned(s, c, n) && s.wire == [] && s.inbox == [] && n !in s.announced && s.calls[c].id !in s.answered
    ensures var s1 := Apply(s, PeerAnnounce(n));
      var e := PeerSend(Answer(StreamFor(s.calls[c].id, n)));
      var s2 := Apply(s1, e);
      && Conforms(s, PeerAnnounce(n)) && Conforms(s1, e)
      && Abandoned(s2, c, n) && s2.calls[c].id == s.calls[c].id && s2.inbox == [] && n !in s2.owed && s2.handlers == s.handlers
      && s2.wire == [Announce(n), Carry(Answer(StreamFor(s.calls[c].id, n)))]
  {
  }

  lemma LateAnswerArrives(s: State, c: nat, n: nat)
    requires Abandoned(s, c, n) && s.inbox == [] && n !in s.owed
    requires s.wire == [Announce(n), Carry(Answer(StreamFor(s.calls[c].id, n)))]
    ensures var s2 := DeliverItem(DeliverItem(s));
      && Abandoned(s2, c, n) && s2.calls[c].id == s.calls[c].id && n !in s2.owed && n in s2.pending && s2.wire == [] && s2.handlers == s.handlers
      && s2.inbox == [Answer(StreamFor(s.calls[c].id, n))]
  {
  }

  lemma LateAnswerLeaks(s: State, c: nat, n: nat, h: nat)
    requires Abandoned(s, c, n) && n !in s.owed && n in s.pending && s.wire == [] && s.inbox == [Answer(StreamFor(s.calls[c].id, n))]
    ensures Leaked(ReceivePacket(s, h), n) && ReceivePacket(s, h).inbox == [] && ReceivePacket(s, h).wire == []
  {
  }

  lemma {:induction false} LateAnswerRun(s: State, c: nat, n: nat, h: nat)
    requires Abandoned(s, c, n) && s.wire == [] && s.inbox == [] && n !in s.announced && s.calls[c].id !in s.answered && h !in s.handlers
    ensures var events := LateAnswer(s.calls[c].id, n, h);
      Allowed(s, events) && ConformingRun(s, events) && Leaked(Run(s, events), n)
  {
    var id := s.calls[c].id;
    var announce, answer := PeerAnnounce(n), PeerSend(Answer(StreamFor(id, n)));
    var s1 := Apply(s, announce);
    var s2 := Apply(s1, answer);
    var s3 := DeliverItem(s2);
    var s4 := DeliverItem(s3);
    var s5 := ReceivePacket(s4, h);
    LateAnswerSent(s, c, n);
    LateAnswerArrives(s2, c, n);
    LateAnswerLeaks(s4, c, n, h);
    FiveSteps(s, s1, s2, s3, s4, s5, announce, answer, Deliver, Deliver, Receive(h));
  }

  /** Any call that is killed in the middle of its send, while nothing is on the way, leaks the sub-channel of its response: the other side conforms,
      but the response finds a waiter that nobody waits on. */
  lemma SendingKillLeaks(s: State, c: nat, n: nat, h: nat)
    requires OrderlyInv(s) && !Cut(s) && c in s.calls && s.calls[c].phase.Sending? && s.calls[c].slot.None?
    requires s.wire == [] && s.inbox == [] && s.calls[c].id !in s.answered
    requires n != 0 && n !in s.announced && h !in s.handlers
    ensures var s1, events := KillCall(s, c), LateAnswer(s.calls[c].id, n, h);
      Allowed(s1, events) && ConformingRun(s1, events) && Leaked(Run(s1, events), n)
  {
    var s1 := KillCall(s, c);
    assert CallOk(s, c) && Placed(s, n);
    forall d | d in s.calls ensures !Holds(s.calls[d], n) { SlotBrought(s, d); }
    LateAnswerRun(s1, c, n, h);
  }

  /** Any call that is killed when the response it was woken with names a pending sub-channel that nobody else holds leaks it at once. */
  lemma WokenKillLeaks(s: State, c: nat, n: nat)
    requires Enabled(s, Kill(c)) && PendingSlot(s, s.calls[c]) && n == SlotNumber(s.calls[c])
    requires n !in s.owed && !InWire(s.wire, n) && !InInbox(s.inbox, n) && !HeldByHandler(s, n)
    requires forall d :: d in s.calls && d != c ==> !Holds(s.calls[d], n)
    ensures Leaked(KillCall(s, c), n)
  {
  }

  // ---- Such calls exist ----

  /** One call, in a phase, and its response, where it is. */
  function OneCall(phase: Phase, slot: Option<Response>, wire: seq<Item>, inbox: seq<Packet>, pending: set<nat>): State {
    var sent := wire != [] || inbox != [] || pending != {};
    var named := sent && wire != [Announce(5)];
    State(false, true, if phase.Preparing? then map[] else map["a" := 0], map[0 := Call("a", phase, slot)], map[], pending, wire, inbox,
          if sent && !named then {5} else {}, if sent then {5} else {}, if named then {"a"} else {},
          if slot.Some? then {"a"} else {}, if slot.Some? then {StreamFor("a", 5)} else {},
          if named && (|wire| == 0) then {5} else {}, {}, [])
  }

  function Sent1(): State { OneCall(Sending, None, [], [], {}) }

  function Waiting1(): State { OneCall(Waiting, None, [], [], {}) }

  function Woken1(): State { OneCall(Waiting, Some(StreamFor("a", 5)), [], [], {5}) }

  lemma OrderlyFirst(s: State, s1: State, e: Event, rest: seq<Event>)
    requires Enabled(s, e) && OrderlyEvent(s, e) && Apply(s, e) == s1 && Allowed(s1, rest) && Orderly(s1, rest)
    ensures Allowed(s, [e] + rest) && Orderly(s, [e] + rest) && Run(s, [e] + rest) == Run(s1, rest)
  {
    assert ([e] + rest)[1..] == rest;
  }

  lemma SentRun()
    ensures Apply(OneCall(Preparing, None, [], [], {}), Send(0)) == Sent1()
    ensures Enabled(Init(), Begin(0, "a")) && Apply(Init(), Begin(0, "a")) == OneCall(Preparing, None, [], [], {})
    ensures Apply(Sent1(), Sent(0, true)) == Waiting1()
  {
  }

  lemma ConformingIsOrderly(s: State, events: seq<Event>)
    requires Allowed(s, events) && ConformingRun(s, events) && forall i :: 0 <= i < |events| ==> !events[i].Kill?
    ensures Orderly(s, events)
    decreases |events|
  {
    if events != [] {
      assert forall i :: 0 <= i < |events[1..]| ==> events[1..][i] == events[i + 1];
      ConformingIsOrderly(Apply(s, events[0]), events[1..]);
    }
  }

  /** A call can be in the middle of its send, so SendingKillLeaks speaks of a run. */
  lemma KilledWhileSendingLeaks()
    ensures OrderlyReachable(Sent1()) && Enabled(Sent1(), Kill(0)) && !HarmlessKill(Sent1(), 0)
    ensures var s1 := KillCall(Sent1(), 0);
      Allowed(s1, LateAnswer("a", 5, 0)) && ConformingRun(s1, LateAnswer("a", 5, 0)) && Leaked(Run(s1, LateAnswer("a", 5, 0)), 5)
  {
    SentRun();
    OrderlyFirst(OneCall(Preparing, None, [], [], {}), Sent1(), Send(0), []);
    OrderlyFirst(Init(), OneCall(Preparing, None, [], [], {}), Begin(0, "a"), [Send(0)] + []);
    OrderlyReachableInv(Sent1());
    SendingKillLeaks(Sent1(), 0, 5, 0);
  }

  function Announcing1(): State { OneCall(Waiting, None, [Announce(5)], [], {}) }

  function Answering1(): State { OneCall(Waiting, None, [Announce(5), Carry(Answer(StreamFor("a", 5)))], [], {}) }

  function Arriving1(): State { OneCall(Waiting, None, [Carry(Answer(StreamFor("a", 5)))], [], {5}) }

  function Queued1(): State { OneCall(Waiting, None, [], [Answer(StreamFor("a", 5))], {5}) }

  lemma AnswerSteps()
    ensures Conforms(Waiting1(), PeerAnnounce(5)) && Apply(Waiting1(), PeerAnnounce(5)) == Announcing1()
    ensures Conforms(Announcing1(), PeerSend(Answer(StreamFor("a", 5))))
    ensures Apply(Announcing1(), PeerSend(Answer(StreamFor("a", 5)))) == Answering1()
  {
  }

  lemma ArrivalSteps()
    ensures Apply(Answering1(), Deliver) == Arriving1()
    ensures Apply(Arriving1(), Deliver) == Queued1()
    ensures Enabled(Queued1(), Receive(0)) && Apply(Queued1(), Receive(0)) == Woken1()
  {
  }

  lemma AnsweredRun()
    ensures Allowed(Waiting1(), LateAnswer("a", 5, 0)) && ConformingRun(Waiting1(), LateAnswer("a", 5, 0))
    ensures Run(Waiting1(), LateAnswer("a", 5, 0)) == Woken1()
  {
    AnswerSteps();
    ArrivalSteps();
    FiveSteps(Waiting1(), Announcing1(), Answering1(), Arriving1(), Queued1(), Woken1(),
              PeerAnnounce(5), PeerSend(Answer(StreamFor("a", 5))), Deliver, Deliver, Receive(0));
  }

  lemma ThreeFirst(rest: seq<Event>)
    requires Allowed(Waiting1(), rest) && Orderly(Waiting1(), rest)
    ensures OrderlyReachable(Run(Waiting1(), rest))
  {
    SentRun();
    OrderlyFirst(Sent1(), Waiting1(), Sent(0, true), rest);
    OrderlyFirst(OneCall(Preparing, None, [], [], {}), Sent1(), Send(0), [Sent(0, true)] + rest);
    OrderlyFirst(Init(), OneCall(Preparing, None, [], [], {}), Begin(0, "a"), [Send(0)] + ([Sent(0, true)] + rest));
  }

  lemma WokenRun()
    ensures OrderlyReachable(Woken1())
  {
    AnsweredRun();
    ConformingIsOrderly(Waiting1(), LateAnswer("a", 5, 0));
    ThreeFirst(LateAnswer("a", 5, 0));
  }

  /** A call can be woken with a stream, so WokenKillLeaks speaks of a run too. */
  lemma KilledAfterWakingLeaks()
    ensures OrderlyReachable(Woken1()) && Enabled(Woken1(), Kill(0)) && !HarmlessKill(Woken1(), 0)
    ensures Leaked(KillCall(Woken1(), 0), 5)
  {
    WokenRun();
    WokenKillLeaks(Woken1(), 0, 5);
  }
}
