/** One end of the RPC protocol: calls that wait for their responses, handlers of requests, shutdown at any point, and the sub-channels that
    packets announce. */
module RpcPeer {
  import opened Wire

  type Id = string

  /** A value that travels; `stream` says that it is an object that uses a sub-channel. */
  datatype Value = Value(content: int, stream: bool)

  /** `channel` is 0 when the packet names no sub-channel. */
  datatype Request = Request(id: Id, methodName: string, stream: bool, channel: nat)

  datatype Response = Response(id: Id, result: Option<Value>, exception: Option<Value>, channel: nat)

  const EMPTY := Response("", None, None, 0)
  const BAD_CHANNEL := Value(0, false)

  predicate RequestOk(r: Request) { r.id != "" && r.methodName != "" }

  predicate ResponseOk(r: Response) { r.id != "" }

  /** What a conforming peer answers: a sub-channel exactly with a stream, and no result beside an exception. */
  predicate Conforming(r: Response) {
    && (r.channel != 0 <==> r.result.Some? && r.result.value.stream)
    && (r.exception.Some? ==> r.result.None?)
  }

  /** The least that the other side must keep to: an exception never comes with a sub-channel. */
  predicate OneOutcome(r: Response) { r.exception.Some? ==> r.channel == 0 }

  /** A packet as it is decoded; garbage names nothing. */
  datatype Packet = Ask(request: Request) | Answer(response: Response) | Garbage

  /** What arrives on the channel: announcements and closings of sub-channels take effect at once, packets are queued for the receive loop. */
  datatype Item = Announce(number: nat) | Carry(packet: Packet) | Gone(number: nat)

  datatype Outcome = Returned(value: Option<Value>) | RemoteError | Disconnected | Internal | Unserializable | Killed

  datatype Phase = Preparing | Sending | Waiting | Ended(outcome: Outcome)

  /** `slot` is the value of the event that the call waits on. */
  datatype Call = Call(id: Id, phase: Phase, slot: Option<Response>)

  datatype Stage = Authorizing | Calling | MakingSocket

  datatype Handler = Handler(request: Request, stage: Stage, response: Response)

  /** What the code around a handler decides: the authorization, the outcome of the method, the number of a new sub-channel (0 when there is none),
      whether a raw socket is asked for, whether the response can be serialized. */
  datatype Choice = Choice(auth: bool, result: Option<Value>, exception: Option<Value>, number: nat, raw: bool, packs: bool)

  /** `owed` are the sub-channels the other side has announced without having named or closed them yet, `brought` those named by a packet that
      was queued here, `handled` those named by a packet whose handling has ended. */
  datatype State = State(
    broken: bool,
    rpcAlive: bool,
    waiters: map<Id, nat>,
    calls: map<nat, Call>,
    handlers: map<nat, Handler>,
    pending: set<nat>,
    wire: seq<Item>,
    inbox: seq<Packet>,
    owed: set<nat>,
    announced: set<nat>,
    answered: set<Id>,
    heard: set<Id>,
    received: set<Response>,
    brought: set<nat>,
    handled: set<nat>,
    sent: seq<Response>)

  predicate Cut(s: State) { s.broken || !s.rpcAlive }

  /** takeChannel: the sub-channel leaves the pending queue, if it is there. */
  function Take(s: State, n: nat): State { s.(pending := s.pending - {n}) }

  /** The handling of the packet that names n has ended. */
  function Done(s: State, n: nat): State { if n != 0 then s.(handled := s.handled + {n}) else s }

  function SetCall(s: State, c: nat, k: Call): State { s.(calls := s.calls[c := k]) }

  predicate InTable(s: State, c: nat) {
    c in s.calls && s.calls[c].id in s.waiters && s.waiters[s.calls[c].id] == c
  }

  /** The calls after an empty response was sent to every waiter of the table. */
  function AllWoken(s: State): map<nat, Call> {
    map c | c in s.calls :: if InTable(s, c) then s.calls[c].(slot := Some(EMPTY)) else s.calls[c]
  }

  /** shutdown: every waiter gets an empty response and leaves the table, the handlers are killed, the channel is aborted. */
  function Shutdown(s: State): State {
    if s.broken then s
    else s.(broken := true, calls := AllWoken(s), waiters := map[], handlers := map[], pending := {})
  }

  // ---- A call ----

  function BeginCall(s: State, c: nat, id: Id): State {
    SetCall(s, c, Call(id, if Cut(s) then Ended(Disconnected) else Preparing, None))
  }

  /** The sub-channel named by the response that the event of a call holds. */
  function SlotNumber(k: Call): nat { if k.slot.Some? then k.slot.value.channel else 0 }

  /** A call that ends has also ended the handling of the response it was given. */
  function FailCall(s: State, c: nat, outcome: Outcome): State
    requires c in s.calls
  {
    Done(SetCall(s, c, s.calls[c].(phase := Ended(outcome))), SlotNumber(s.calls[c]))
  }

  /** The waiter is in the table before the request is sent. */
  function SendCall(s: State, c: nat): State
    requires c in s.calls
  {
    if Cut(s) then FailCall(s, c, Disconnected)
    else SetCall(s, c, s.calls[c].(phase := Sending)).(waiters := s.waiters[s.calls[c].id := c])
  }

  function SentCall(s: State, c: nat, success: bool): State
    requires c in s.calls
  {
    if !success then FailCall(Shutdown(s), c, Disconnected)
    else if Cut(s) then FailCall(s, c, Disconnected)
    else SetCall(s, c, s.calls[c].(phase := Waiting))
  }

  function LeaveTable(s: State, c: nat): State
    requires c in s.calls
  {
    s.(waiters := map id | id in s.waiters && id != s.calls[c].id :: s.waiters[id])
  }

  /** The call goes on after its event was set. */
  function ResumeCall(s: State, c: nat): State
    requires c in s.calls && s.calls[c].slot.Some?
  {
    var r := s.calls[c].slot.value;
    var s1 := LeaveTable(s, c);
    if !ResponseOk(r) || Cut(s) then FailCall(s1, c, Disconnected)
    else if r.exception.Some? then FailCall(s1, c, RemoteError)
    else if r.result.Some? && r.result.value.stream then
      if r.channel == 0 then FailCall(s1, c, Internal)
      else if r.channel !in s.pending then FailCall(s1, c, RemoteError)
      else FailCall(Take(s1, r.channel), c, Returned(r.result))
    else FailCall(if r.channel != 0 then Take(s1, r.channel) else s1, c, Returned(r.result))
  }

  /** A kill reaches a call where it blocks. Only the wait for the event is guarded: a call that is killed in the middle of its send leaves its
      waiter in the table. */
  function KillCall(s: State, c: nat): State
    requires c in s.calls
  {
    FailCall(if s.calls[c].phase.Waiting? then LeaveTable(s, c) else s, c, Killed)
  }

  // ---- The receive loop ----

  function Claim(s: State, n: nat): State { if n != 0 then Take(s, n) else s }

  /** Claim and drop: the sub-channel is released, and that is all there is to handle. */
  function Drop(s: State, n: nat): State { Done(Claim(s, n), n) }

  /** The event of a call is set. When the call has ended nobody looks at it any more, and a response that was there before is lost. */
  function WakeCall(s: State, c: nat, r: Response): State
    requires c in s.calls
  {
    var s1 := SetCall(s, c, s.calls[c].(slot := Some(r)));
    if Outstanding(s.calls[c]) then Done(s1, SlotNumber(s.calls[c])) else Done(s1, r.channel)
  }

  predicate Outstanding(k: Call) { k.phase.Sending? || k.phase.Waiting? }

  /** What one packet does; h is the name of the handler that a request starts. */
  function Dispatch(s: State, packet: Packet, h: nat): State {
    match packet
    case Garbage => s
    case Ask(r) =>
      if RequestOk(r) then s.(handlers := s.handlers[h := Handler(r, Authorizing, EMPTY)]) else Drop(s, r.channel)
    case Answer(r) =>
      if !ResponseOk(r) then Drop(s, r.channel)
      else
        var s1 := s.(received := s.received + {r}, heard := s.heard + {r.id});
        if r.id in s.waiters && s.waiters[r.id] in s.calls then
          WakeCall(s1, s.waiters[r.id], r)
        else Drop(s1, r.channel)
  }

  function ReceivePacket(s: State, h: nat): State
    requires s.inbox != []
  {
    var s1 := s.(inbox := s.inbox[1..]);
    if Cut(s) then Shutdown(s1) else Dispatch(s1, s.inbox[0], h)
  }

  // ---- A handler ----

  /** The end of handleRequest, on whatever path: the cleaner claims the sub-channel of the request if nobody did. */
  function EndHandler(s: State, h: nat): State
    requires h in s.handlers
  {
    Drop(s.(handlers := map k | k in s.handlers && k != h :: s.handlers[k]), s.handlers[h].request.channel)
  }

  function Reply(s: State, h: nat, r: Response, packs: bool): State
    requires h in s.handlers
  {
    var r1 := if r.exception.Some? then r.(result := None) else r;
    EndHandler(if packs then s.(sent := s.sent + [r1]) else s, h)
  }

  /** A result that is a stream gets a sub-channel, or becomes an exception. */
  function BuildReply(s: State, h: nat, r: Response, choice: Choice): State
    requires h in s.handlers
  {
    if r.exception.None? && r.result.Some? && r.result.value.stream then
      if Cut(s) then EndHandler(s, h)
      else if choice.number == 0 then Reply(s, h, r.(exception := Some(BAD_CHANNEL)), choice.packs)
      else if choice.raw then s.(handlers := s.handlers[h := Handler(s.handlers[h].request, MakingSocket, r.(channel := choice.number))])
      else Reply(s, h, r.(channel := choice.number), choice.packs)
    else Reply(s, h, r, choice.packs)
  }

  /** The handler runs until it blocks again. */
  function HandlerGo(s: State, h: nat, choice: Choice): State
    requires h in s.handlers
  {
    var q := s.handlers[h].request;
    match s.handlers[h].stage
    case Authorizing =>
      if Cut(s) || !choice.auth then EndHandler(s, h)
      else
        var s1 := Claim(s, q.channel);
        if q.stream && (q.channel == 0 || q.channel !in s.pending) then
          BuildReply(s1, h, Response(q.id, None, Some(BAD_CHANNEL), 0), choice)
        else s1.(handlers := s.handlers[h := Handler(q, Calling, EMPTY)])
    case Calling =>
      if Cut(s) then EndHandler(s, h)
      else
        BuildReply(s, h, Response(q.id, if choice.exception.Some? then None else choice.result, choice.exception, 0), choice)
    case MakingSocket =>
      if Cut(s) then EndHandler(s, h) else Reply(s, h, s.handlers[h].response, choice.packs)
  }

  // ---- The machine ----

  datatype Event =
    | Begin(c: nat, id: Id)
    | Fail(c: nat, outcome: Outcome)
    | Send(c: nat)
    | Sent(c: nat, success: bool)
    | Resume(c: nat)
    | Kill(c: nat)
    | Receive(h: nat)
    | Handle(h: nat, choice: Choice)
    | KillHandler(h: nat)
    | Deliver
    | Lost
    | RpcGone
    | PeerAnnounce(n: nat)
    | PeerSend(packet: Packet)
    | PeerClose(n: nat)

  function NumberIn(p: Packet): nat {
    match p
    case Ask(r) => r.channel
    case Answer(r) => r.channel
    case Garbage => 0
  }

  /** What can happen at all. Identifiers are universally unique; otherwise the other side may send anything in any order, and a call may be killed
      wherever it is. */
  predicate Enabled(s: State, e: Event) {
    match e
    case Begin(c, id) => c !in s.calls && id != "" && forall k :: k in s.calls ==> s.calls[k].id != id
    case Fail(c, o) => c in s.calls && s.calls[c].phase.Preparing? && (o.Internal? || o.Unserializable? || o.Disconnected?)
    case Send(c) => c in s.calls && s.calls[c].phase.Preparing?
    case Sent(c, _) => c in s.calls && s.calls[c].phase.Sending?
    case Resume(c) => c in s.calls && s.calls[c].phase.Waiting? && s.calls[c].slot.Some?
    case Kill(c) => c in s.calls && !s.calls[c].phase.Ended?
    case Receive(h) => s.inbox != [] && h !in s.handlers
    case Handle(h, _) => h in s.handlers
    case KillHandler(h) => h in s.handlers
    case Deliver => s.wire != []
    case _ => true
  }

  /** What a conforming other side sends: it announces a number once, names it once after that, never beside an exception, and answers an identifier
      once. */
  predicate Conforms(s: State, e: Event) {
    match e
    case PeerAnnounce(n) => n != 0 && n !in s.announced
    case PeerSend(p) =>
      && (NumberIn(p) == 0 || NumberIn(p) in s.owed)
      && (p.Answer? && ResponseOk(p.response) ==> OneOutcome(p.response) && p.response.id !in s.answered)
    case PeerClose(n) => n in s.announced
    case _ => true
  }

  /** The event of the call holds a response whose sub-channel is still pending. */
  predicate PendingSlot(s: State, k: Call) { SlotNumber(k) != 0 && SlotNumber(k) in s.pending }

  /** A kill before the request is sent, or in the wait for the response while none has come that names a pending sub-channel. */
  predicate HarmlessKill(s: State, c: nat)
    requires c in s.calls
  {
    s.calls[c].phase.Preparing? || (s.calls[c].phase.Waiting? && !PendingSlot(s, s.calls[c]))
  }

  function DeliverItem(s: State): State
    requires s.wire != []
  {
    var s1 := s.(wire := s.wire[1..]);
    match s.wire[0]
    case Announce(n) => if s.broken then s1 else s1.(pending := s.pending + {n})
    case Carry(p) => s1.(inbox := s.inbox + [p], brought := s.brought + {NumberIn(p)})
    case Gone(n) => Take(s1, n)
  }

  function Apply(s: State, e: Event): State
    requires Enabled(s, e)
  {
    match e
    case Begin(c, id) => BeginCall(s, c, id)
    case Fail(c, o) => FailCall(s, c, o)
    case Send(c) => SendCall(s, c)
    case Sent(c, success) => SentCall(s, c, success)
    case Resume(c) => ResumeCall(s, c)
    case Kill(c) => KillCall(s, c)
    case Receive(h) => ReceivePacket(s, h)
    case Handle(h, choice) => HandlerGo(s, h, choice)
    case KillHandler(h) => EndHandler(s, h)
    case Deliver => DeliverItem(s)
    case Lost => Shutdown(s)
    case RpcGone => s.(rpcAlive := false)
    case PeerAnnounce(n) => s.(announced := s.announced + {n}, owed := s.owed + {n}, wire := s.wire + [Announce(n)])
    case PeerSend(p) =>
      s.(owed := s.owed - {NumberIn(p)}, wire := s.wire + [Carry(p)],
         answered := if p.Answer? then s.answered + {p.response.id} else s.answered)
    case PeerClose(n) => s.(owed := s.owed - {n}, wire := s.wire + [Gone(n)])
  }

  function Init(): State {
    State(false, true, map[], map[], map[], {}, [], [], {}, {}, {}, {}, {}, {}, {}, [])
  }

  predicate Allowed(s: State, events: seq<Event>)
    decreases |events|
  {
    events == [] || (Enabled(s, events[0]) && Allowed(Apply(s, events[0]), events[1..]))
  }

  /** A run in which the other side conforms and every kill is harmless. */
  predicate Orderly(s: State, events: seq<Event>)
    requires Allowed(s, events)
    decreases |events|
  {
    events == [] || (OrderlyEvent(s, events[0]) && Orderly(Apply(s, events[0]), events[1..]))
  }

  predicate OrderlyEvent(s: State, e: Event)
    requires Enabled(s, e)
  {
    Conforms(s, e) && (e.Kill? ==> HarmlessKill(s, e.c))
  }

  function Run(s: State, events: seq<Event>): State
    requires Allowed(s, events)
    decreases |events|
  {
    if events == [] then s else Run(Apply(s, events[0]), events[1..])
  }
}
