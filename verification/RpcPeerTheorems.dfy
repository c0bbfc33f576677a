/** What holds in every run of the RPC machine: responses reach the call they belong to, nobody waits for ever, and no sub-channel is left behind. */
module RpcPeerTheorems {
  import opened Wire
  import opened RpcPeer

  // ---- Handlers ----

  /** A response before it is packed: the sub-channel is there exactly when the result is a stream that will be sent. */
  predicate Sendable(r: Response) {
    if r.exception.Some? then r.channel == 0 else (r.channel != 0 <==> r.result.Some? && r.result.value.stream)
  }

  ghost predicate HandlerOk(s: State, h: nat) {
    h in s.handlers && s.handlers[h].stage.MakingSocket? ==> Sendable(s.handlers[h].response)
  }

  ghost predicate HandlersOk(s: State) { forall h: nat :: HandlerOk(s, h) }

  /** What one turn of a handler may change: its own sub-channel is claimed, for good when it ends, and one conforming response may be sent. */
  ghost predicate Handled(s: State, s1: State, h: nat)
    requires h in s.handlers
  {
    var n := s.handlers[h].request.channel;
    && s1 == s.(handlers := s1.handlers, pending := s1.pending, sent := s1.sent, handled := s1.handled)
    && s1.handled == (if h in s1.handlers || n == 0 then s.handled else s.handled + {n})
    && s1.pending <= s.pending && s.pending <= s1.pending + {n}
    && (forall k :: k in s.handlers && k != h ==> k in s1.handlers && s1.handlers[k] == s.handlers[k])
    && (forall k :: k in s1.handlers ==> k in s.handlers)
    && (if h in s1.handlers then s1.handlers[h].request == s.handlers[h].request && HandlerOk(s1, h) else n != 0 ==> n !in s1.pending)
    && SentMore(s.sent, s1.sent)
  }

  /** At most one more response, and a conforming one. */
  predicate SentMore(a: seq<Response>, b: seq<Response>) {
    b == a || (|b| == |a| + 1 && b[..|a|] == a && Conforming(b[|a|]))
  }

  /** s0 is the state before the turn; in s the sub-channel of the request may have been claimed and a response sent. */
  ghost predicate Turning(s0: State, s: State, h: nat) {
    && h in s0.handlers
    && s == s0.(pending := s.pending, sent := s.sent)
    && (s.pending == s0.pending || s.pending == s0.pending - {s0.handlers[h].request.channel})
    && SentMore(s0.sent, s.sent)
  }

  lemma EndFrame(s0: State, s: State, h: nat)
    requires Turning(s0, s, h)
    ensures Handled(s0, EndHandler(s, h), h)
  {
  }

  lemma ReplyFrame(s0: State, s: State, h: nat, r: Response, packs: bool)
    requires Turning(s0, s, h) && s.sent == s0.sent && Sendable(r)
    ensures Handled(s0, Reply(s, h, r, packs), h)
  {
    var r1 := if r.exception.Some? then r.(result := None) else r;
    EndFrame(s0, if packs then s.(sent := s.sent + [r1]) else s, h);
  }

  lemma BuildFrame(s0: State, s: State, h: nat, r: Response, choice: Choice)
    requires Turning(s0, s, h) && s.sent == s0.sent && r.channel == 0
    ensures Handled(s0, BuildReply(s, h, r, choice), h)
  {
    if r.exception.None? && r.result.Some? && r.result.value.stream {
      if Cut(s) {
        EndFrame(s0, s, h);
      } else if choice.number == 0 {
        ReplyFrame(s0, s, h, r.(exception := Some(BAD_CHANNEL)), choice.packs);
      } else if !choice.raw {
        ReplyFrame(s0, s, h, r.(channel := choice.number), choice.packs);
      }
    } else {
      ReplyFrame(s0, s, h, r, choice.packs);
    }
  }

  lemma HandlerFrame(s: State, h: nat, choice: Choice)
    requires h in s.handlers && HandlerOk(s, h)
    ensures Handled(s, HandlerGo(s, h, choice), h)
  {
    var q := s.handlers[h].request;
    match s.handlers[h].stage
    case Authorizing =>
      if Cut(s) || !choice.auth {
        EndFrame(s, s, h);
      } else {
        BuildFrame(s, Claim(s, q.channel), h, Response(q.id, None, Some(BAD_CHANNEL), 0), choice);
      }
    case Calling =>
      if Cut(s) {
        EndFrame(s, s, h);
      } else {
        BuildFrame(s, s, h, Response(q.id, if choice.exception.Some? then None else choice.result, choice.exception, 0), choice);
      }
    case MakingSocket =>
      if Cut(s) {
        EndFrame(s, s, h);
      } else {
        ReplyFrame(s, s, h, s.handlers[h].response, choice.packs);
      }
  }

  // ---- Calls and the waiter table ----

  /** An empty response comes from shutdown only; every other one was received and carries the identifier of the call. */
  ghost predicate SlotOk(s: State, k: Call) {
    k.slot.Some? ==>
      if k.slot.value == EMPTY then s.broken else k.slot.value.id == k.id && k.slot.value in s.received
  }

  ghost predicate Answered(k: Call) {
    k.phase.Ended? && (k.phase.outcome.Returned? || k.phase.outcome.RemoteError?)
  }

  ghost predicate CallOk(s: State, c: nat) {
    c in s.calls ==>
      var k := s.calls[c];
      && k.id != "" && SlotOk(s, k)
      && (k.phase.Preparing? ==> k.slot.None?)
      && (Outstanding(k) ==> if s.broken then k.slot.Some? else InTable(s, c))
      && (Answered(k) ==> k.slot.Some? && k.slot.value.id == k.id && !InTable(s, c))
      && (k.phase.Ended? && k.phase.outcome.Returned? ==> k.slot.Some? && k.slot.value.result == k.phase.outcome.value)
  }

  ghost predicate TableOk(s: State, id: Id) {
    id in s.waiters ==>
      s.waiters[id] in s.calls && s.calls[s.waiters[id]].id == id && !s.calls[s.waiters[id]].phase.Preparing?
  }

  ghost predicate SameId(s: State, c: nat, d: nat) {
    c in s.calls && d in s.calls && s.calls[c].id == s.calls[d].id ==> c == d
  }

  ghost predicate Core(s: State) {
    && (s.broken ==> s.waiters == map[] && s.pending == {})
    && (forall c: nat :: CallOk(s, c))
    && (forall id: Id :: TableOk(s, id))
    && (forall c: nat, d: nat :: SameId(s, c, d))
  }

  lemma ShutdownCore(s: State)
    requires Core(s)
    ensures Core(Shutdown(s))
  {
    var s1 := Shutdown(s);
    if !s.broken {
      forall c: nat ensures CallOk(s1, c) { assert CallOk(s, c) && (c in s.calls ==> TableOk(s, s.calls[c].id)); }
      forall c: nat, d: nat ensures SameId(s1, c, d) { assert SameId(s, c, d); }
    }
  }

  /** A call ends without an answer, in the table or out of it. */
  lemma EndedCore(s: State, c: nat, o: Outcome)
    requires Core(s) && c in s.calls
    requires !o.Returned? && !o.RemoteError?
    ensures Core(SetCall(s, c, s.calls[c].(phase := Ended(o))))
  {
    var s1 := SetCall(s, c, s.calls[c].(phase := Ended(o)));
    forall d: nat ensures CallOk(s1, d) { assert CallOk(s, d) && CallOk(s, c); }
    forall id: Id ensures TableOk(s1, id) { assert TableOk(s, id); }
    forall a: nat, b: nat ensures SameId(s1, a, b) { assert SameId(s, a, b); }
  }

  lemma FailCore(s: State, c: nat, o: Outcome)
    requires Core(s) && c in s.calls
    requires !o.Returned? && !o.RemoteError?
    ensures Core(FailCall(s, c, o))
  {
    EndedCore(s, c, o);
    SamePart(SetCall(s, c, s.calls[c].(phase := Ended(o))), FailCall(s, c, o));
  }

  lemma LeftCore(s: State, c: nat, o: Outcome)
    requires Core(s) && c in s.calls
    requires o.Returned? || o.RemoteError? ==> s.calls[c].slot.Some? && s.calls[c].slot.value.id == s.calls[c].id
    requires o.Returned? ==> s.calls[c].slot.value.result == o.value
    ensures Core(SetCall(LeaveTable(s, c), c, s.calls[c].(phase := Ended(o))))
  {
    var s1 := SetCall(LeaveTable(s, c), c, s.calls[c].(phase := Ended(o)));
    forall d: nat ensures CallOk(s1, d) { assert CallOk(s, d) && CallOk(s, c) && SameId(s, c, d); }
    forall id: Id ensures TableOk(s1, id) { assert TableOk(s, id) && TableOk(s, s.calls[c].id); }
    forall a: nat, b: nat ensures SameId(s1, a, b) { assert SameId(s, a, b); }
  }

  lemma LeaveCore(s: State, c: nat, o: Outcome)
    requires Core(s) && c in s.calls
    requires o.Returned? || o.RemoteError? ==> s.calls[c].slot.Some? && s.calls[c].slot.value.id == s.calls[c].id
    requires o.Returned? ==> s.calls[c].slot.value.result == o.value
    ensures Core(FailCall(LeaveTable(s, c), c, o))
  {
    LeftCore(s, c, o);
    SamePart(SetCall(LeaveTable(s, c), c, s.calls[c].(phase := Ended(o))), FailCall(LeaveTable(s, c), c, o));
  }

  lemma ResumeCore(s: State, c: nat)
    requires Core(s) && c in s.calls && s.calls[c].slot.Some?
    ensures Core(ResumeCall(s, c))
  {
    var r := s.calls[c].slot.value;
    assert CallOk(s, c);
    var s2 := ResumeCall(s, c);
    var o := s2.calls[c].phase.outcome;
    LeaveCore(s, c, o);
    TakeCore(FailCall(LeaveTable(s, c), c, o), r.channel);
  }

  lemma TakeCore(s: State, n: nat)
    requires Core(s)
    ensures Core(Take(s, n)) && Core(Claim(s, n))
  {
    SamePart(s, Take(s, n));
  }

  /** Core sees only these components. */
  lemma SamePart(s: State, s1: State)
    requires Core(s) && s1.broken == s.broken && s1.rpcAlive == s.rpcAlive && s1.waiters == s.waiters && s1.calls == s.calls
    requires s.received <= s1.received && (s.broken ==> s1.pending == {})
    ensures Core(s1)
  {
    forall d: nat ensures CallOk(s1, d) { assert CallOk(s, d); }
    forall id: Id ensures TableOk(s1, id) { assert TableOk(s, id); }
    forall a: nat, b: nat ensures SameId(s1, a, b) { assert SameId(s, a, b); }
  }

  lemma SendCore(s: State, c: nat)
    requires Core(s) && c in s.calls && s.calls[c].phase.Preparing?
    ensures Core(SendCall(s, c))
  {
    var s1 := SendCall(s, c);
    assert CallOk(s, c);
    assert TableOk(s, s.calls[c].id);
    if Cut(s) {
      NotInTable(s, c);
      FailCore(s, c, Disconnected);
    } else {
      forall d: nat ensures CallOk(s1, d) { assert CallOk(s, d) && SameId(s, c, d); }
      forall id: Id ensures TableOk(s1, id) { assert TableOk(s, id); }
      forall a: nat, b: nat ensures SameId(s1, a, b) { assert SameId(s, a, b); }
    }
  }

  lemma NotInTable(s: State, c: nat)
    requires Core(s) && c in s.calls && s.calls[c].phase.Preparing?
    ensures !InTable(s, c)
  {
    assert TableOk(s, s.calls[c].id);
  }

  lemma SentCore(s: State, c: nat, success: bool)
    requires Core(s) && c in s.calls && s.calls[c].phase.Sending?
    ensures Core(SentCall(s, c, success))
  {
    var s1 := SentCall(s, c, success);
    if !success {
      ShutdownCore(s);
      FailCore(Shutdown(s), c, Disconnected);
    } else if Cut(s) {
      FailCore(s, c, Disconnected);
    } else {
      forall d: nat ensures CallOk(s1, d) { assert CallOk(s, d); }
      forall id: Id ensures TableOk(s1, id) { assert TableOk(s, id); }
      forall a: nat, b: nat ensures SameId(s1, a, b) { assert SameId(s, a, b); }
    }
  }

  lemma BeginCore(s: State, c: nat, id: Id)
    requires Core(s) && Enabled(s, Begin(c, id))
    ensures Core(BeginCall(s, c, id))
  {
    var s1 := BeginCall(s, c, id);
    forall d: nat ensures CallOk(s1, d) { assert CallOk(s, d); }
    forall i: Id ensures TableOk(s1, i) { assert TableOk(s, i); }
    forall a: nat, b: nat ensures SameId(s1, a, b) { assert SameId(s, a, b); }
  }

  lemma WakeCore(s: State, c: nat, r: Response)
    requires Core(s) && !s.broken && r in s.received && InTable(s, c) && s.calls[c].id == r.id && ResponseOk(r)
    ensures Core(WakeCall(s, c, r))
  {
    assert TableOk(s, r.id);
    var s1 := SetCall(s, c, s.calls[c].(slot := Some(r)));
    forall d: nat ensures CallOk(s1, d) { assert CallOk(s, d); }
    forall id: Id ensures TableOk(s1, id) { assert TableOk(s, id); }
    forall a: nat, b: nat ensures SameId(s1, a, b) { assert SameId(s, a, b); }
    SamePart(s1, WakeCall(s, c, r));
  }

  lemma DispatchCore(s: State, p: Packet, h: nat)
    requires Core(s) && !s.broken
    ensures Core(Dispatch(s, p, h))
  {
    if p.Answer? && ResponseOk(p.response) && p.response.id in s.waiters {
      var r := p.response;
      assert TableOk(s, r.id);
      var s1 := s.(received := s.received + {r}, heard := s.heard + {r.id});
      SamePart(s, s1);
      WakeCore(s1, s.waiters[r.id], r);
    } else {
      SamePart(s, Dispatch(s, p, h));
    }
  }

  lemma ReceiveCore(s: State, h: nat)
    requires Core(s) && s.inbox != []
    ensures Core(ReceivePacket(s, h))
  {
    var rest := s.(inbox := s.inbox[1..]);
    SamePart(s, rest);
    if Cut(s) { ShutdownCore(rest); } else { DispatchCore(rest, s.inbox[0], h); }
  }

  lemma HandlerCore(s: State, s1: State, h: nat)
    requires Core(s) && h in s.handlers && Handled(s, s1, h)
    ensures Core(s1)
  {
    SamePart(s, s1);
  }

  lemma KillCore(s: State, c: nat)
    requires Core(s) && c in s.calls && !s.calls[c].phase.Ended?
    ensures Core(KillCall(s, c))
  {
    if s.calls[c].phase.Waiting? { LeaveCore(s, c, Killed); } else { FailCore(s, c, Killed); }
  }

  lemma RpcGoneCore(s: State)
    requires Core(s)
    ensures Core(s.(rpcAlive := false))
  {
    var s1 := s.(rpcAlive := false);
    forall d: nat ensures CallOk(s1, d) { assert CallOk(s, d); }
    forall id: Id ensures TableOk(s1, id) { assert TableOk(s, id); }
    forall a: nat, b: nat ensures SameId(s1, a, b) { assert SameId(s, a, b); }
  }

  lemma FailPreparingCore(s: State, c: nat, o: Outcome)
    requires Core(s) && Enabled(s, Fail(c, o))
    ensures Core(FailCall(s, c, o))
  {
    NotInTable(s, c);
    FailCore(s, c, o);
  }

  lemma WireCore(s: State, e: Event)
    requires Core(s) && Enabled(s, e) && (e.PeerAnnounce? || e.PeerSend? || e.PeerClose?)
    ensures Core(Apply(s, e))
  {
    SamePart(s, Apply(s, e));
  }

  lemma DeliverCore(s: State)
    requires Core(s) && s.wire != []
    ensures Core(DeliverItem(s))
  {
    SamePart(s, DeliverItem(s));
  }

  lemma CoreStep(s: State, e: Event)
    requires Core(s) && HandlersOk(s) && Enabled(s, e)
    ensures Core(Apply(s, e))
  {
    match e
    case Begin(c, id) => BeginCore(s, c, id);
    case Fail(c, o) => FailPreparingCore(s, c, o);
    case Send(c) => SendCore(s, c);
    case Sent(c, success) => SentCore(s, c, success);
    case Resume(c) => ResumeCore(s, c);
    case Kill(c) => KillCore(s, c);
    case Receive(h) => ReceiveCore(s, h);
    case Handle(h, choice) =>
      HandlerFrame(s, h, choice);
      HandlerCore(s, Apply(s, e), h);
    case KillHandler(h) =>
      EndFrame(s, s, h);
      HandlerCore(s, Apply(s, e), h);
    case Deliver => DeliverCore(s);
    case Lost => ShutdownCore(s);
    case RpcGone => RpcGoneCore(s);
    case _ => WireCore(s, e);
  }

  // ---- Every run, whatever the other side sends and whoever is killed ----

  ghost predicate SentOk(s: State) { forall i :: 0 <= i < |s.sent| ==> Conforming(s.sent[i]) }

  lemma HandledKeeps(s: State, s1: State, h: nat)
    requires HandlersOk(s) && SentOk(s) && h in s.handlers && Handled(s, s1, h)
    ensures HandlersOk(s1) && SentOk(s1)
  {
    forall k: nat ensures HandlerOk(s1, k) { assert HandlerOk(s, k); }
  }

  /** Handlers stay, leave, or begin. */
  lemma SameHandlers(s: State, s1: State)
    requires HandlersOk(s) && SentOk(s) && s1.sent == s.sent
    requires forall k :: k in s1.handlers ==> (k in s.handlers && s1.handlers[k] == s.handlers[k]) || s1.handlers[k].stage.Authorizing?
    ensures HandlersOk(s1) && SentOk(s1)
  {
    forall k: nat ensures HandlerOk(s1, k) { assert HandlerOk(s, k); }
  }

  lemma CallsKeep(s: State, e: Event)
    requires HandlersOk(s) && SentOk(s) && Enabled(s, e)
    requires e.Begin? || e.Fail? || e.Send? || e.Sent? || e.Kill? || e.Lost? || e.RpcGone?
    ensures HandlersOk(Apply(s, e)) && SentOk(Apply(s, e))
  {
    SameHandlers(s, Apply(s, e));
  }

  lemma WireKeeps(s: State, e: Event)
    requires HandlersOk(s) && SentOk(s) && Enabled(s, e) && (e.Deliver? || e.PeerAnnounce? || e.PeerSend? || e.PeerClose?)
    ensures HandlersOk(Apply(s, e)) && SentOk(Apply(s, e))
  {
    SameHandlers(s, Apply(s, e));
  }

  lemma ResumeKeeps(s: State, c: nat)
    requires HandlersOk(s) && SentOk(s) && c in s.calls && s.calls[c].slot.Some?
    ensures HandlersOk(ResumeCall(s, c)) && SentOk(ResumeCall(s, c))
  {
    SameHandlers(s, ResumeCall(s, c));
  }

  lemma ReceiveKeepsHandlers(s: State, h: nat)
    requires HandlersOk(s) && SentOk(s) && s.inbox != []
    ensures HandlersOk(ReceivePacket(s, h)) && SentOk(ReceivePacket(s, h))
  {
    SameHandlers(s, ReceivePacket(s, h));
  }

  lemma HandlersStep(s: State, e: Event)
    requires HandlersOk(s) && SentOk(s) && Enabled(s, e)
    ensures HandlersOk(Apply(s, e)) && SentOk(Apply(s, e))
  {
    match e
    case Handle(h, choice) =>
      HandlerFrame(s, h, choice);
      HandledKeeps(s, HandlerGo(s, h, choice), h);
    case KillHandler(h) =>
      EndFrame(s, s, h);
      HandledKeeps(s, EndHandler(s, h), h);
    case Receive(h) => ReceiveKeepsHandlers(s, h);
    case Resume(c) => ResumeKeeps(s, c);
    case Deliver => WireKeeps(s, e);
    case PeerAnnounce(_) => WireKeeps(s, e);
    case PeerSend(_) => WireKeeps(s, e);
    case PeerClose(_) => WireKeeps(s, e);
    case _ => CallsKeep(s, e);
  }

  ghost predicate Inv(s: State) { Core(s) && HandlersOk(s) && SentOk(s) }

  lemma InvStep(s: State, e: Event)
    requires Inv(s) && Enabled(s, e)
    ensures Inv(Apply(s, e))
  {
    CoreStep(s, e);
    HandlersStep(s, e);
  }

  lemma {:induction false} InvAlways(s: State, events: seq<Event>)
    requires Inv(s) && Allowed(s, events)
    ensures Inv(Run(s, events))
    decreases |events|
  {
    if events != [] {
      InvStep(s, events[0]);
      InvAlways(Apply(s, events[0]), events[1..]);
    }
  }

  ghost predicate Reachable(s: State) { exists events :: Allowed(Init(), events) && Run(Init(), events) == s }

  lemma ReachableInv(s: State)
    requires Reachable(s)
    ensures Inv(s)
  {
    var events :| Allowed(Init(), events) && Run(Init(), events) == s;
    InvAlways(Init(), events);
  }

  /** A value returned by a call is the result of a response that came with the identifier of this call and no other, however responses are
      doubled, reordered or made up. */
  lemma CorrelatedResults(s: State, c: nat)
    requires Reachable(s) && c in s.calls && s.calls[c].phase.Ended? && s.calls[c].phase.outcome.Returned?
    ensures exists r :: r in s.received && r.id == s.calls[c].id && r.result == s.calls[c].phase.outcome.value
    ensures forall d :: d in s.calls && s.calls[d].id == s.calls[c].id ==> d == c
  {
    ReachableInv(s);
    assert CallOk(s, c);
    assert s.calls[c].slot.value in s.received;
    forall d | d in s.calls && s.calls[d].id == s.calls[c].id ensures d == c { assert SameId(s, c, d); }
  }

  /** Shutdown leaves no waiter in the table and no sub-channel in the pending queue, and whoever still waits has been woken. */
  lemma ShutdownReleases(s: State, c: nat)
    requires Reachable(s)
    ensures s.broken ==> s.waiters == map[] && s.pending == {}
    ensures c in s.calls && Outstanding(s.calls[c]) ==> if s.broken then s.calls[c].slot.Some? else InTable(s, c)
  {
    ReachableInv(s);
    assert CallOk(s, c);
  }

  /** How a call that waited at the shutdown may end. */
  predicate EndsDisconnected(k: Call, killed: bool) {
    Outstanding(k) || k.phase == Ended(Disconnected) || (killed && k.phase == Ended(Killed))
  }

  /** What one step leaves of a call, once the peer is broken. */
  ghost predicate StaysBroken(s: State, s1: State, c: nat, killed: bool)
    requires c in s.calls
  {
    && s1.broken && c in s1.calls
    && (Outstanding(s.calls[c]) ==> EndsDisconnected(s1.calls[c], killed))
    && (s.calls[c].phase.Ended? ==> s1.calls[c].phase == s.calls[c].phase)
    && (Answered(s1.calls[c]) ==> Answered(s.calls[c]))
  }

  lemma BrokenCall(s: State, e: Event, c: nat)
    requires Core(s) && s.broken && Enabled(s, e) && c in s.calls
    requires e.Begin? || e.Fail? || e.Send? || e.Sent? || e.Kill? || e.Resume?
    ensures StaysBroken(s, Apply(s, e), c, e == Kill(c))
  {
    assert CallOk(s, c);
  }

  lemma BrokenOther(s: State, e: Event, c: nat)
    requires Inv(s) && s.broken && Enabled(s, e) && c in s.calls
    requires !(e.Begin? || e.Fail? || e.Send? || e.Sent? || e.Kill? || e.Resume?)
    ensures StaysBroken(s, Apply(s, e), c, false)
  {
    if e.Handle? {
      assert HandlerOk(s, e.h);
      HandlerFrame(s, e.h, e.choice);
      assert Handled(s, Apply(s, e), e.h);
    }
  }

  lemma BrokenStep(s: State, e: Event, c: nat)
    requires Inv(s) && s.broken && Enabled(s, e) && c in s.calls
    ensures StaysBroken(s, Apply(s, e), c, e == Kill(c))
  {
    if e.Begin? || e.Fail? || e.Send? || e.Sent? || e.Kill? || e.Resume? { BrokenCall(s, e, c); } else { BrokenOther(s, e, c); }
  }

  /** After shutdown, in whatever happens next, a call that was waiting ends as disconnected, unless it is killed, and no call returns a value any
      more. */
  lemma {:induction false} NothingAfterShutdown(s: State, events: seq<Event>, c: nat)
    requires Inv(s) && s.broken && Allowed(s, events) && c in s.calls
    ensures StaysBroken(s, Run(s, events), c, Kill(c) in events)
    decreases |events|
  {
    if events != [] {
      InvStep(s, events[0]);
      BrokenStep(s, events[0], c);
      NothingAfterShutdown(Apply(s, events[0]), events[1..], c);
      assert events == [events[0]] + events[1..];
    }
  }

  /** The responses of this end are what a conforming end sends: an exception never comes with a sub-channel or a result, and a sub-channel comes
      exactly with a stream. */
  lemma ResponsesConform(s: State, i: nat)
    requires Reachable(s) && i < |s.sent|
    ensures Conforming(s.sent[i]) && OneOutcome(s.sent[i])
  {
    ReachableInv(s);
  }
}
