/** How calls end: the outcome of each call, event by event, and what it does with the sub-channel of its response. */
module RpcPeerOutcomes {
  import opened Wire
  import opened RpcPeer
  import opened RpcPeerTheorems

  predicate Empty(r: Response) { r.id == "" }

  predicate BringsStream(r: Response) { r.result.Some? && r.result.value.stream }

  /** What a call makes of the response it was woken with: an exception of the other side is raised as a remote error, whatever else is in the
      response; a stream without a number is an internal error, and one whose sub-channel is gone a remote one; anything else is returned. */
  function Verdict(s: State, r: Response): Outcome {
    if Cut(s) || Empty(r) then Disconnected
    else if r.exception.Some? then RemoteError
    else if BringsStream(r) && r.channel == 0 then Internal
    else if BringsStream(r) && r.channel !in s.pending then RemoteError
    else Returned(r.result)
  }

  /** The phase of the call c after the event e. */
  function PhaseAfter(s: State, e: Event, c: nat): Phase
    requires c in s.calls && Enabled(s, e)
  {
    match e
    case Fail(d, o) => if d == c then Ended(o) else s.calls[c].phase
    case Send(d) => if d != c then s.calls[c].phase else if Cut(s) then Ended(Disconnected) else Sending
    case Sent(d, success) => if d != c then s.calls[c].phase else if !success || Cut(s) then Ended(Disconnected) else Waiting
    case Resume(d) => if d == c then Ended(Verdict(s, s.calls[c].slot.value)) else s.calls[c].phase
    case Kill(d) => if d == c then Ended(Killed) else s.calls[c].phase
    case _ => s.calls[c].phase
  }

  lemma EarlyPhase(s: State, e: Event, c: nat)
    requires c in s.calls && Enabled(s, e) && (e.Begin? || e.Fail? || e.Send?)
    ensures c in Apply(s, e).calls && Apply(s, e).calls[c].phase == PhaseAfter(s, e, c)
  {
  }

  lemma SentPhase(s: State, d: nat, success: bool, c: nat)
    requires c in s.calls && Enabled(s, Sent(d, success))
    ensures c in Apply(s, Sent(d, success)).calls && Apply(s, Sent(d, success)).calls[c].phase == PhaseAfter(s, Sent(d, success), c)
  {
  }

  lemma KillPhase(s: State, d: nat, c: nat)
    requires c in s.calls && Enabled(s, Kill(d))
    ensures c in Apply(s, Kill(d)).calls && Apply(s, Kill(d)).calls[c].phase == PhaseAfter(s, Kill(d), c)
  {
  }

  lemma ResumeOwn(s: State, c: nat)
    requires Enabled(s, Resume(c))
    ensures Apply(s, Resume(c)).calls == s.calls[c := s.calls[c].(phase := Ended(Verdict(s, s.calls[c].slot.value)))]
  {
  }

  lemma ResumePhase(s: State, d: nat, c: nat)
    requires c in s.calls && Enabled(s, Resume(d))
    ensures c in Apply(s, Resume(d)).calls && Apply(s, Resume(d)).calls[c].phase == PhaseAfter(s, Resume(d), c)
  {
    ResumeOwn(s, d);
  }

  lemma OtherPhase(s: State, e: Event, c: nat)
    requires Inv(s) && c in s.calls && Enabled(s, e) && !(e.Begin? || e.Fail? || e.Send? || e.Sent? || e.Resume? || e.Kill?)
    ensures c in Apply(s, e).calls && Apply(s, e).calls[c].phase == s.calls[c].phase
  {
    if e.Handle? {
      assert HandlerOk(s, e.h);
      HandlerFrame(s, e.h, e.choice);
    }
  }

  /** In every run each call has exactly the outcome that its own events and its response give it; nothing else ends it or changes how it ended. */
  lemma OutcomeExactly(s: State, e: Event, c: nat)
    requires Reachable(s) && c in s.calls && Enabled(s, e)
    ensures c in Apply(s, e).calls && Apply(s, e).calls[c].phase == PhaseAfter(s, e, c)
    ensures s.calls[c].phase.Ended? ==> Apply(s, e).calls[c].phase == s.calls[c].phase
  {
    ReachableInv(s);
    match e
    case Resume(d) => ResumePhase(s, d, c);
    case Sent(d, success) => SentPhase(s, d, success, c);
    case Kill(d) => KillPhase(s, d, c);
    case _ => if e.Begin? || e.Fail? || e.Send? { EarlyPhase(s, e, c); } else { OtherPhase(s, e, c); }
  }

  /** A call that begins is disconnected at once exactly when the peer is gone, and waits for nothing yet. */
  lemma Begins(s: State, c: nat, id: Id)
    requires Enabled(s, Begin(c, id))
    ensures Apply(s, Begin(c, id)).calls[c] == Call(id, if Cut(s) then Ended(Disconnected) else Preparing, None)
  {
  }

  /** A call that returns a value has taken the sub-channel that its response names out of the pending queue, and no other; one that fails takes
      nothing. */
  lemma ReturnTakes(s: State, c: nat)
    requires Enabled(s, Resume(c))
    ensures var r, s1 := s.calls[c].slot.value, Apply(s, Resume(c));
      s1.pending == if Verdict(s, r).Returned? && r.channel != 0 then s.pending - {r.channel} else s.pending
  {
  }

  /** A failed send shuts the peer down: everybody who waits is woken with an empty response, and the handlers are killed. */
  lemma FailedSend(s: State, c: nat, d: nat)
    requires Reachable(s) && !s.broken && Enabled(s, Sent(c, false))
    requires d in s.calls && d != c && Outstanding(s.calls[d])
    ensures var s1 := Apply(s, Sent(c, false));
      && s1.broken && s1.waiters == map[] && s1.handlers == map[] && s1.pending == {}
      && s1.calls[d].slot == Some(EMPTY)
  {
    ReachableInv(s);
    assert CallOk(s, d);
  }

  /** A response that arrives wakes the call that waits under its identifier, and no other; when nobody is registered under it its sub-channel is
      dropped, and so it is with a packet that is not valid. */
  lemma ResponseWakes(s: State, h: nat, r: Response, c: nat)
    requires Reachable(s) && Enabled(s, Receive(h)) && !Cut(s) && s.inbox[0] == Answer(r) && c in s.calls && Outstanding(s.calls[c])
    ensures var s1 := Apply(s, Receive(h));
      && c in s1.calls && s1.calls[c].slot == (if r.id == s.calls[c].id then Some(r) else s.calls[c].slot)
      && (r.id == s.calls[c].id ==> s1.pending == s.pending)
      && (r.id == "" || r.id !in s.waiters ==> s1.pending == s.pending - (if r.channel == 0 then {} else {r.channel}))
  {
    ReachableInv(s);
    assert CallOk(s, c) && TableOk(s, r.id);
    if r.id in s.waiters { assert SameId(s, c, s.waiters[r.id]); }
  }

  /** A request that is not valid starts nothing, and its sub-channel is dropped. */
  lemma InvalidRequest(s: State, h: nat, q: Request)
    requires Enabled(s, Receive(h)) && !Cut(s) && s.inbox[0] == Ask(q) && (q.id == "" || q.methodName == "")
    ensures var s1 := Apply(s, Receive(h));
      s1.handlers == s.handlers && s1.calls == s.calls && s1.pending == s.pending - (if q.channel == 0 then {} else {q.channel})
  {
  }
}
