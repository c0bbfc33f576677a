/** No announced sub-channel stays in the pending queue of an RPC end for good. */
module RpcPeerChannels {
  import opened Wire
  import opened RpcPeer
  import opened RpcPeerTheorems

  // ---- What is on its way ----

  predicate Names(item: Item, n: nat) {
    match item
    case Announce(_) => false
    case Carry(p) => NumberIn(p) == n
    case Gone(m) => m == n
  }

  ghost predicate InWire(wire: seq<Item>, n: nat) { exists i :: 0 <= i < |wire| && Names(wire[i], n) }

  ghost predicate InInbox(inbox: seq<Packet>, n: nat) { exists i :: 0 <= i < |inbox| && NumberIn(inbox[i]) == n }

  /** An announcement on the wire will be followed by the packet that names the sub-channel, or by its closing. */
  ghost predicate WireOk(wire: seq<Item>, owed: set<nat>, i: nat) {
    i < |wire| && wire[i].Announce? ==> wire[i].number != 0 && (wire[i].number in owed || InWire(wire[i + 1..], wire[i].number))
  }

  predicate AnswerTo(p: Packet, id: Id) { p.Answer? && p.response.id == id }

  function WireAnswers(wire: seq<Item>, id: Id): nat {
    if wire == [] then 0 else WireAnswers(wire[1..], id) + (if wire[0].Carry? && AnswerTo(wire[0].packet, id) then 1 else 0)
  }

  function InboxAnswers(inbox: seq<Packet>, id: Id): nat {
    if inbox == [] then 0 else InboxAnswers(inbox[1..], id) + (if AnswerTo(inbox[0], id) then 1 else 0)
  }

  /** An identifier is answered once: its response is on the wire, or in the inbox, or was heard. */
  ghost predicate AnswerOk(s: State, id: Id) {
    id != "" ==>
      WireAnswers(s.wire, id) + InboxAnswers(s.inbox, id) + (if id in s.heard then 1 else 0) <= (if id in s.answered then 1 else 0)
  }

  predicate GoodPacket(p: Packet) { p.Answer? && ResponseOk(p.response) ==> OneOutcome(p.response) }

  predicate GoodItem(item: Item) { item.Carry? ==> GoodPacket(item.packet) }

  ghost predicate GoodReceived(s: State, r: Response) {
    r in s.received ==> r.id in s.heard && OneOutcome(r) && r.channel in s.brought
  }

  predicate Carries(item: Item, n: nat) { item.Carry? && NumberIn(item.packet) == n }

  /** Where the announcement of n may still be, and where the packet that names it. */
  ghost predicate Placed(s: State, n: nat) {
    n != 0 ==>
      && (n in s.brought ==> n in s.announced && n !in s.owed && forall i :: 0 <= i < |s.wire| ==> s.wire[i] != Announce(n))
      && (n in s.owed ==> n in s.announced)
      && (forall i :: 0 <= i < |s.wire| && s.wire[i] == Announce(n) ==> n in s.announced)
      && (forall i :: 0 <= i < |s.wire| && Carries(s.wire[i], n) ==> n in s.announced && n !in s.owed)
      && (forall i, j :: 0 <= i < j < |s.wire| && Carries(s.wire[i], n) ==> s.wire[j] != Announce(n))
  }

  ghost predicate Traffic(s: State) {
    && (forall i: nat :: WireOk(s.wire, s.owed, i))
    && (forall id: Id :: AnswerOk(s, id))
    && (forall i :: 0 <= i < |s.wire| ==> GoodItem(s.wire[i]))
    && (forall i :: 0 <= i < |s.inbox| ==> GoodPacket(s.inbox[i]))
    && (forall r :: GoodReceived(s, r))
    && (forall n: nat :: Placed(s, n))
    && (forall i :: 0 <= i < |s.inbox| ==> NumberIn(s.inbox[i]) in s.brought)
  }

  // ---- Who is going to claim a sub-channel ----

  predicate Holds(k: Call, n: nat) { Outstanding(k) && k.slot.Some? && k.slot.value.channel == n }

  ghost predicate HeldByCall(s: State, n: nat) { exists c :: c in s.calls && Holds(s.calls[c], n) }

  ghost predicate HeldByHandler(s: State, n: nat) { exists h :: h in s.handlers && s.handlers[h].request.channel == n }

  ghost predicate Explained(s: State, n: nat) {
    n in s.owed || InWire(s.wire, n) || InInbox(s.inbox, n) || HeldByHandler(s, n) || HeldByCall(s, n)
  }

  ghost predicate NumberOk(s: State, n: nat) { n in s.pending ==> n != 0 && Explained(s, n) }

  // ---- Traffic is kept ----

  lemma WireJoin(wire: seq<Item>, item: Item, id: Id)
    ensures WireAnswers(wire + [item], id) == WireAnswers(wire, id) + (if item.Carry? && AnswerTo(item.packet, id) then 1 else 0)
  {
    if wire == [] {
      assert wire + [item] == [item] && [item][1..] == [];
    } else {
      assert (wire + [item])[1..] == wire[1..] + [item];
      WireJoin(wire[1..], item, id);
    }
  }

  lemma InboxJoin(inbox: seq<Packet>, p: Packet, id: Id)
    ensures InboxAnswers(inbox + [p], id) == InboxAnswers(inbox, id) + (if AnswerTo(p, id) then 1 else 0)
  {
    if inbox == [] {
      assert inbox + [p] == [p] && [p][1..] == [];
    } else {
      assert (inbox + [p])[1..] == inbox[1..] + [p];
      InboxJoin(inbox[1..], p, id);
    }
  }

  /** Something is added to the wire; what leaves owed is named by it. */
  lemma WireGrows(wire: seq<Item>, owed: set<nat>, item: Item, owed1: set<nat>, i: nat)
    requires WireOk(wire, owed, i)
    requires forall n :: n in owed && n !in owed1 ==> Names(item, n)
    requires item.Announce? ==> item.number in owed1 && item.number != 0
    ensures WireOk(wire + [item], owed1, i)
  {
    var all := wire + [item];
    if i < |wire| && wire[i].Announce? {
      var n := wire[i].number;
      var tail := all[i + 1..];
      assert tail == wire[i + 1..] + [item];
      if n in owed && n !in owed1 {
        assert Names(tail[|tail| - 1], n);
      } else if n !in owed {
        var j :| 0 <= j < |wire[i + 1..]| && Names(wire[i + 1..][j], n);
        assert Names(tail[j], n);
      }
    }
  }

  lemma WireShrinks(wire: seq<Item>, owed: set<nat>, i: nat)
    requires wire != [] && WireOk(wire, owed, i + 1)
    ensures WireOk(wire[1..], owed, i)
  {
    if i < |wire[1..]| {
      assert wire[1..][i + 1..] == wire[i + 2..];
    }
  }

  lemma SendPlaced(s: State, item: Item, s1: State, n: nat)
    requires Placed(s, n) && s1.wire == s.wire + [item] && s1.brought == s.brought
    requires s.announced <= s1.announced && s1.owed <= s.owed + (if item.Announce? then {item.number} else {})
    requires item.Announce? ==> item.number !in s.announced && item.number in s1.announced
    requires item.Carry? && n != 0 && NumberIn(item.packet) == n ==> n in s.owed && n !in s1.owed
    ensures Placed(s1, n)
  {
    assert forall i :: 0 <= i < |s.wire| ==> s1.wire[i] == s.wire[i];
  }

  lemma SendTraffic(s: State, item: Item, owed1: set<nat>, answered1: set<Id>, s1: State)
    requires Traffic(s) && s1.brought == s.brought
    requires s.announced <= s1.announced && s1.owed <= s.owed + (if item.Announce? then {item.number} else {})
    requires item.Announce? ==> item.number !in s.announced && item.number in s1.announced
    requires item.Carry? ==> NumberIn(item.packet) == 0 || (NumberIn(item.packet) in s.owed && NumberIn(item.packet) !in s1.owed)
    requires s1.wire == s.wire + [item] && s1.owed == owed1 && s1.answered == answered1
    requires s1.inbox == s.inbox && s1.heard == s.heard && s1.received == s.received
    requires forall n :: n in s.owed && n !in owed1 ==> Names(item, n)
    requires item.Announce? ==> item.number in owed1 && item.number != 0
    requires GoodItem(item) && s.answered <= answered1
    requires item.Carry? && item.packet.Answer? ==> item.packet.response.id in answered1
    requires item.Carry? && item.packet.Answer? && ResponseOk(item.packet.response) ==> item.packet.response.id !in s.answered
    ensures Traffic(s1)
  {
    forall i: nat ensures WireOk(s1.wire, s1.owed, i) {
      assert WireOk(s.wire, s.owed, i);
      WireGrows(s.wire, s.owed, item, owed1, i);
    }
    forall id: Id ensures AnswerOk(s1, id) {
      assert AnswerOk(s, id);
      WireJoin(s.wire, item, id);
    }
    forall r ensures GoodReceived(s1, r) { assert GoodReceived(s, r); }
    forall n: nat ensures Placed(s1, n) {
      assert Placed(s, n);
      SendPlaced(s, item, s1, n);
    }
  }

  lemma DeliverPlaced(s: State, s1: State, n: nat)
    requires Placed(s, n) && s.wire != [] && s1.wire == s.wire[1..] && s1.owed == s.owed && s1.announced == s.announced
    requires s1.brought == s.brought + (if s.wire[0].Carry? then {NumberIn(s.wire[0].packet)} else {})
    ensures Placed(s1, n)
  {
    assert forall i :: 0 <= i < |s1.wire| ==> s1.wire[i] == s.wire[i + 1];
  }

  lemma DeliverTraffic(s: State, s1: State)
    requires Traffic(s) && s.wire != [] && s1.wire == s.wire[1..] && s1.owed == s.owed && s1.answered == s.answered
    requires s1.heard == s.heard && s1.received == s.received
    requires s1.inbox == if s.wire[0].Carry? then s.inbox + [s.wire[0].packet] else s.inbox
    requires s1.announced == s.announced
    requires s1.brought == s.brought + (if s.wire[0].Carry? then {NumberIn(s.wire[0].packet)} else {})
    ensures Traffic(s1)
  {
    forall i: nat ensures WireOk(s1.wire, s1.owed, i) {
      assert WireOk(s.wire, s.owed, i + 1);
      WireShrinks(s.wire, s.owed, i);
    }
    forall id: Id ensures AnswerOk(s1, id) {
      assert AnswerOk(s, id);
      if s.wire[0].Carry? { InboxJoin(s.inbox, s.wire[0].packet, id); }
    }
    forall r ensures GoodReceived(s1, r) { assert GoodReceived(s, r); }
    assert GoodItem(s.wire[0]);
    assert forall i :: 0 <= i < |s1.wire| ==> s1.wire[i] == s.wire[i + 1];
    forall n: nat ensures Placed(s1, n) {
      assert Placed(s, n);
      DeliverPlaced(s, s1, n);
    }
  }

  /** What the receive loop does to the traffic: the first packet is gone, and a good answer was heard. */
  lemma ReceiveTraffic(s: State, s1: State)
    requires Traffic(s) && s.inbox != [] && s1.wire == s.wire && s1.owed == s.owed && s1.answered == s.answered
    requires s1.inbox == s.inbox[1..] && s1.announced == s.announced && s1.brought == s.brought
    requires if s1.heard == s.heard then s1.received == s.received
             else s.inbox[0].Answer? && ResponseOk(s.inbox[0].response)
                  && s1.heard == s.heard + {s.inbox[0].response.id} && s1.received == s.received + {s.inbox[0].response}
    ensures Traffic(s1)
  {
    assert GoodPacket(s.inbox[0]);
    forall i: nat ensures WireOk(s1.wire, s1.owed, i) { assert WireOk(s.wire, s.owed, i); }
    forall id: Id ensures AnswerOk(s1, id) { assert AnswerOk(s, id); }
    forall r ensures GoodReceived(s1, r) { assert GoodReceived(s, r); }
    forall n: nat ensures Placed(s1, n) { assert Placed(s, n); }
    assert forall i :: 0 <= i < |s1.inbox| ==> s1.inbox[i] == s.inbox[i + 1];
  }

  lemma SameTraffic(s: State, s1: State)
    requires Traffic(s) && s1.wire == s.wire && s1.owed == s.owed && s1.inbox == s.inbox && s1.answered == s.answered
    requires s1.heard == s.heard && s1.received == s.received && s1.announced == s.announced && s1.brought == s.brought
    ensures Traffic(s1)
  {
    forall i: nat ensures WireOk(s1.wire, s1.owed, i) { assert WireOk(s.wire, s.owed, i); }
    forall id: Id ensures AnswerOk(s1, id) { assert AnswerOk(s, id); }
    forall r ensures GoodReceived(s1, r) { assert GoodReceived(s, r); }
    forall n: nat ensures Placed(s1, n) { assert Placed(s, n); }
  }

  lemma NotHeard(s: State, r: Response)
    requires Traffic(s) && s.inbox != [] && s.inbox[0] == Answer(r) && ResponseOk(r)
    ensures r.id !in s.heard && OneOutcome(r)
  {
    assert AnswerOk(s, r.id);
    assert GoodPacket(s.inbox[0]);
  }

  lemma PeerTraffic(s: State, e: Event)
    requires Traffic(s) && Enabled(s, e) && Conforms(s, e) && (e.PeerAnnounce? || e.PeerSend? || e.PeerClose?)
    ensures Traffic(Apply(s, e))
  {
    var s1 := Apply(s, e);
    match e
    case PeerAnnounce(n) => SendTraffic(s, Announce(n), s1.owed, s1.answered, s1);
    case PeerSend(p) => SendTraffic(s, Carry(p), s1.owed, s1.answered, s1);
    case PeerClose(n) => SendTraffic(s, Gone(n), s1.owed, s1.answered, s1);
  }

  lemma HandledTraffic(s: State, s1: State, h: nat)
    requires Traffic(s) && h in s.handlers && Handled(s, s1, h)
    ensures Traffic(s1)
  {
    SameTraffic(s, s1);
  }

  lemma CallTraffic(s: State, e: Event)
    requires Traffic(s) && Enabled(s, e) && (e.Begin? || e.Fail? || e.Send? || e.Kill?)
    ensures Traffic(Apply(s, e))
  {
    SameTraffic(s, Apply(s, e));
  }

  lemma SentTraffic(s: State, c: nat, success: bool)
    requires Traffic(s) && c in s.calls
    ensures Traffic(SentCall(s, c, success))
  {
    SameTraffic(s, SentCall(s, c, success));
  }

  lemma LostTraffic(s: State)
    requires Traffic(s)
    ensures Traffic(Shutdown(s)) && Traffic(s.(rpcAlive := false))
  {
    SameTraffic(s, Shutdown(s));
    SameTraffic(s, s.(rpcAlive := false));
  }

  lemma ResumeTraffic(s: State, c: nat)
    requires Traffic(s) && Enabled(s, Resume(c))
    ensures Traffic(ResumeCall(s, c))
  {
    SameTraffic(s, ResumeCall(s, c));
  }

  lemma HeardTraffic(s: State, h: nat)
    requires Traffic(s) && s.inbox != []
    ensures Traffic(ReceivePacket(s, h))
  {
    if s.inbox[0].Answer? && ResponseOk(s.inbox[0].response) { NotHeard(s, s.inbox[0].response); }
    ReceiveTraffic(s, ReceivePacket(s, h));
  }

  lemma DeliveredTraffic(s: State)
    requires Traffic(s) && s.wire != []
    ensures Traffic(DeliverItem(s))
  {
    DeliverTraffic(s, DeliverItem(s));
  }

  lemma HandlerTraffic(s: State, e: Event)
    requires Traffic(s) && HandlersOk(s) && Enabled(s, e) && (e.Handle? || e.KillHandler?)
    ensures Traffic(Apply(s, e))
  {
    if e.Handle? {
      HandlerFrame(s, e.h, e.choice);
      HandledTraffic(s, HandlerGo(s, e.h, e.choice), e.h);
    } else {
      EndFrame(s, s, e.h);
      HandledTraffic(s, EndHandler(s, e.h), e.h);
    }
  }

  lemma TrafficStep(s: State, e: Event)
    requires Traffic(s) && HandlersOk(s) && Enabled(s, e) && Conforms(s, e)
    ensures Traffic(Apply(s, e))
  {
    match e
    case Receive(h) => HeardTraffic(s, h);
    case Deliver => DeliveredTraffic(s);
    case Resume(c) => ResumeTraffic(s, c);
    case Sent(c, success) => SentTraffic(s, c, success);
    case Lost => LostTraffic(s);
    case RpcGone => LostTraffic(s);
    case Handle(_, _) => HandlerTraffic(s, e);
    case KillHandler(_) => HandlerTraffic(s, e);
    case _ => if e.Begin? || e.Fail? || e.Send? || e.Kill? { CallTraffic(s, e); } else { PeerTraffic(s, e); }
  }

  // ---- Every pending sub-channel keeps somebody who will claim it ----

  lemma ExplainedKept(s: State, s1: State, n: nat)
    requires s.owed <= s1.owed && s1.wire == s.wire && s1.inbox == s.inbox
    requires forall h :: h in s.handlers && s.handlers[h].request.channel == n ==> h in s1.handlers && s1.handlers[h].request.channel == n
    requires forall c :: c in s.calls && Holds(s.calls[c], n) ==> c in s1.calls && Holds(s1.calls[c], n)
    ensures Explained(s, n) ==> Explained(s1, n)
  {
    if HeldByHandler(s, n) {
      var h :| h in s.handlers && s.handlers[h].request.channel == n;
      assert h in s1.handlers;
    }
    if HeldByCall(s, n) {
      var c :| c in s.calls && Holds(s.calls[c], n);
      assert Holds(s1.calls[c], n);
    }
  }

  /** A call that goes on with a response claims the sub-channel of the response. */
  lemma ResumeClaims(s: State, c: nat, n: nat)
    requires Core(s) && Traffic(s) && s.rpcAlive && Enabled(s, Resume(c)) && NumberOk(s, n)
    ensures NumberOk(ResumeCall(s, c), n)
  {
    var s1 := ResumeCall(s, c);
    if n in s.pending {
      assert CallOk(s, c);
      var r := s.calls[c].slot.value;
      assert GoodReceived(s, r);
      if r.channel == n {
        assert n !in s1.pending;
      } else {
        ExplainedKept(s, s1, n);
      }
    }
  }

  lemma CallKeeps(s: State, e: Event, n: nat)
    requires Core(s) && s.rpcAlive && Enabled(s, e) && NumberOk(s, n)
    requires e.Begin? || e.Fail? || e.Send? || e.Sent? || (e.Kill? && HarmlessKill(s, e.c))
    ensures NumberOk(Apply(s, e), n)
  {
    var s1 := Apply(s, e);
    if n in s1.pending {
      ExplainedKept(s, s1, n);
    }
  }

  lemma HandlerKeeps(s: State, s1: State, h: nat, n: nat)
    requires h in s.handlers && Handled(s, s1, h) && NumberOk(s, n)
    ensures NumberOk(s1, n)
  {
    if n in s1.pending {
      ExplainedKept(s, s1, n);
    }
  }

  lemma InboxTail(inbox: seq<Packet>, n: nat)
    requires inbox != [] && InInbox(inbox, n)
    ensures NumberIn(inbox[0]) == n || InInbox(inbox[1..], n)
  {
    var i :| 0 <= i < |inbox| && NumberIn(inbox[i]) == n;
    if i > 0 { assert inbox[1..][i - 1] == inbox[i]; }
  }

  lemma WireTail(wire: seq<Item>, n: nat)
    requires wire != [] && InWire(wire, n)
    ensures Names(wire[0], n) || InWire(wire[1..], n)
  {
    var i :| 0 <= i < |wire| && Names(wire[i], n);
    if i > 0 { assert wire[1..][i - 1] == wire[i]; }
  }

  /** The state after one packet, apart from who holds n: nothing else that explained n is lost. */
  lemma ReceivedExplains(s: State, s1: State, n: nat)
    requires s.inbox != [] && s1.wire == s.wire && s1.owed == s.owed && s1.inbox == s.inbox[1..]
    requires forall h :: h in s.handlers ==> h in s1.handlers && s1.handlers[h] == s.handlers[h]
    requires forall c :: c in s.calls && Holds(s.calls[c], n) ==> c in s1.calls && Holds(s1.calls[c], n)
    requires NumberIn(s.inbox[0]) == n ==> HeldByHandler(s1, n) || HeldByCall(s1, n)
    ensures Explained(s, n) ==> Explained(s1, n)
  {
    if Explained(s, n) {
      if InInbox(s.inbox, n) {
        InboxTail(s.inbox, n);
      } else {
        ExplainedKept(s.(inbox := s1.inbox), s1, n);
        assert HeldByHandler(s, n) ==> HeldByHandler(s.(inbox := s1.inbox), n);
        assert HeldByCall(s, n) ==> HeldByCall(s.(inbox := s1.inbox), n);
      }
    }
  }

  lemma ReceiveKeeps(s: State, h: nat, n: nat)
    requires Core(s) && Traffic(s) && NoneDead(s) && s.rpcAlive && !s.broken && s.inbox != [] && h !in s.handlers && NumberOk(s, n)
    ensures NumberOk(ReceivePacket(s, h), n)
  {
    var s1 := ReceivePacket(s, h);
    if n in s1.pending {
      match s.inbox[0] {
        case Garbage =>
        case Ask(r) =>
          if RequestOk(r) { assert h in s1.handlers && s1.handlers[h].request == r; }
        case Answer(r) =>
          if ResponseOk(r) && r.id in s.waiters { AnswerHeld(s, h, r); }
      }
      ReceivedExplains(s, s1, n);
    }
  }

  /** No waiter of the table belongs to a call that has ended. */
  ghost predicate NoneDead(s: State) {
    forall id :: id in s.waiters && s.waiters[id] in s.calls ==> Outstanding(s.calls[s.waiters[id]])
  }

  /** The answer reaches a call whose slot was empty, so it replaces nothing, and the call holds its sub-channel now. */
  lemma AnswerHeld(s: State, h: nat, r: Response)
    requires Core(s) && Traffic(s) && s.rpcAlive && !s.broken && s.inbox != [] && s.inbox[0] == Answer(r) && ResponseOk(r)
    requires r.id in s.waiters && NoneDead(s)
    ensures var c := s.waiters[r.id];
      c in s.calls && s.calls[c].slot.None? && Holds(ReceivePacket(s, h).calls[c], r.channel)
  {
    var c := s.waiters[r.id];
    assert TableOk(s, r.id) && CallOk(s, c);
    NotHeard(s, r);
    assert s.calls[c].slot.Some? ==> GoodReceived(s, s.calls[c].slot.value);
  }

  lemma DeliverKeeps(s: State, n: nat)
    requires Traffic(s) && !s.broken && s.wire != [] && NumberOk(s, n)
    ensures NumberOk(DeliverItem(s), n)
  {
    var s1 := DeliverItem(s);
    if n in s1.pending {
      assert WireOk(s.wire, s.owed, 0);
      if n in s.pending && InWire(s.wire, n) { WireTail(s.wire, n); }
      if s.wire[0].Carry? {
        var p := s.wire[0].packet;
        assert s1.inbox[|s1.inbox| - 1] == p;
        if InInbox(s.inbox, n) {
          var i :| 0 <= i < |s.inbox| && NumberIn(s.inbox[i]) == n;
          assert s1.inbox[i] == s.inbox[i];
        }
      }
      if HeldByHandler(s, n) { assert HeldByHandler(s1, n); }
      if HeldByCall(s, n) { assert HeldByCall(s1, n); }
    }
  }

  lemma SendKeeps(s: State, s1: State, item: Item, n: nat)
    requires s1 == s.(wire := s.wire + [item], owed := s1.owed, announced := s1.announced, answered := s1.answered)
    requires n in s.owed ==> n in s1.owed || Names(item, n)
    requires NumberOk(s, n)
    ensures NumberOk(s1, n)
  {
    if n in s1.pending {
      assert s1.wire[|s.wire|] == item;
      if InWire(s.wire, n) {
        var i :| 0 <= i < |s.wire| && Names(s.wire[i], n);
        assert s1.wire[i] == s.wire[i];
      }
      if HeldByHandler(s, n) { assert HeldByHandler(s1, n); }
      if HeldByCall(s, n) { assert HeldByCall(s1, n); }
    }
  }

  lemma NumberStep(s: State, e: Event, n: nat)
    requires Core(s) && Traffic(s) && HandlersOk(s) && Enabled(s, e) && OrderlyEvent(s, e)
    requires s.rpcAlive ==> NoneDead(s) && NumberOk(s, n)
    ensures Apply(s, e).rpcAlive ==> NumberOk(Apply(s, e), n)
  {
    var s1 := Apply(s, e);
    if s1.rpcAlive && n in s1.pending {
      match e
      case Receive(h) =>
        if !s.broken { ReceiveKeeps(s, h, n); }
      case Deliver =>
        if !s.broken { DeliverKeeps(s, n); }
      case Resume(c) => ResumeClaims(s, c, n);
      case Handle(h, choice) =>
        HandlerFrame(s, h, choice);
        HandlerKeeps(s, s1, h, n);
      case KillHandler(h) =>
        EndFrame(s, s, h);
        HandlerKeeps(s, s1, h, n);
      case Lost =>
      case RpcGone =>
      case PeerAnnounce(m) => SendKeeps(s, s1, Announce(m), n);
      case PeerSend(p) => SendKeeps(s, s1, Carry(p), n);
      case PeerClose(m) => SendKeeps(s, s1, Gone(m), n);
      case _ => CallKeeps(s, e, n);
    }
  }
}
