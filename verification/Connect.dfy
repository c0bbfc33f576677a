/** Connecting to a peer: many coroutines may ask for the same address, and only one attempt is made at a time. */
module Connect {
  import opened Wire

  datatype Peer = Peer(serial: nat, name: string, address: string)

  datatype Result = Found(peer: Peer) | NoPeer | Threw

  /** Where a coroutine is in connect(): in the transport, in the exchange of headers, or waiting for the attempt of another one. */
  datatype Phase =
    | Dialing(address: string, wanted: string, event: nat)
    | Greeting(address: string, wanted: string, event: nat)
    | Waiting(address: string, event: nat)
    | Ended(result: Result)

  /** `peers` is the multi-map in the order in which it is iterated; `fired` are the events that were set. */
  datatype State = State(
    myName: string,
    peers: seq<Peer>,
    known: map<string, string>,
    connecting: map<string, nat>,
    fired: set<nat>,
    nextEvent: nat,
    nextSerial: nat,
    coroutines: map<nat, Phase>)

  /** The order of the keys. */
  predicate Before(a: string, b: string) {
    b != "" && (a == "" || a[0] < b[0] || (a[0] == b[0] && Before(a[1..], b[1..])))
  }

  /** A multi-map is iterated by key, and under one key from the newest value to the oldest. */
  function Insert(peers: seq<Peer>, p: Peer): (r: seq<Peer>)
    ensures forall q :: q in r <==> q == p || q in peers
  {
    if peers == [] then [p]
    else if !Before(peers[0].name, p.name) then [p] + peers
    else
      assert peers == [peers[0]] + peers[1..];
      [peers[0]] + Insert(peers[1..], p)
  }

  /** The value of a key: the newest. */
  function Named(peers: seq<Peer>, name: string): (r: Option<Peer>)
    ensures r.Some? ==> r.value in peers && r.value.name == name
    ensures r.None? ==> forall p :: p in peers ==> p.name != name
  {
    if peers == [] then None
    else if peers[0].name == name then Some(peers[0])
    else
      assert peers == [peers[0]] + peers[1..];
      Named(peers[1..], name)
  }

  /** The loop over all peers that looks for an address. */
  function At(peers: seq<Peer>, address: string): (r: Option<Peer>)
    ensures r.Some? ==> r.value in peers && r.value.address == address
    ensures r.None? ==> forall p :: p in peers ==> p.address != address
  {
    if peers == [] then None
    else if peers[0].address == address then Some(peers[0])
    else
      assert peers == [peers[0]] + peers[1..];
      At(peers[1..], address)
  }

  predicate IsAddress(s: string) { exists i :: 0 <= i < |s| - 1 && s[i] == '/' && s[i + 1] == '/' }

  function Set(s: State, c: nat, p: Phase): State { s.(coroutines := s.coroutines[c := p]) }

  function End(s: State, c: nat, r: Result): State { Set(s, c, Ended(r)) }

  function FoundOr(o: Option<Peer>): Result {
    match o
    case Some(p) => Found(p)
    case None => NoPeer
  }

  /** From the resolved address to the first block: wait for the attempt under way, or begin one. */
  function Join(s: State, c: nat, name: string, address: string, transport: bool): State {
    if !transport then End(s, c, NoPeer)
    else if address in s.connecting then Set(s, c, Waiting(address, s.connecting[address]))
    else
      Set(s, c, Dialing(address, name, s.nextEvent)).(connecting := s.connecting[address := s.nextEvent], nextEvent := s.nextEvent + 1)
  }

  /** connect(), up to the point where it blocks; `transport` says whether a transport supports the address. */
  function Start(s: State, c: nat, target: string, transport: bool): State {
    if Named(s.peers, target).Some? then End(s, c, FoundOr(Named(s.peers, target)))
    else if target in s.known then Join(s, c, target, s.known[target], transport)
    else if IsAddress(target) then
      if At(s.peers, target).Some? then End(s, c, FoundOr(At(s.peers, target))) else Join(s, c, "", target, transport)
    else End(s, c, NoPeer)
  }

  /** The attempt is over, however it ended: the event is set and leaves the table. */
  function Release(s: State, p: Phase): State
    requires p.Dialing? || p.Greeting?
  {
    s.(fired := s.fired + {p.event}, connecting := map a | a in s.connecting && a != p.address :: s.connecting[a])
  }

  function Attempted(s: State, c: nat, peer: Option<Peer>): State
    requires c in s.coroutines && (s.coroutines[c].Dialing? || s.coroutines[c].Greeting?)
  {
    var p := s.coroutines[c];
    var s1 := End(Release(s, p), c, FoundOr(peer));
    if peer.Some? then s1.(known := s1.known[peer.value.name := p.address]) else s1
  }

  function Dialed(s: State, c: nat, ok: bool): State
    requires c in s.coroutines && s.coroutines[c].Dialing?
  {
    var p := s.coroutines[c];
    if ok then Set(s, c, Greeting(p.address, p.wanted, p.event)) else Attempted(s, c, None)
  }

  /** preparePeer after its receive: the other side must have another name than ours, and the wanted one if there is one. */
  function Acceptable(s: State, wanted: string, header: Option<string>): bool {
    header.Some? && (wanted != "" ==> wanted == header.value) && header.value != s.myName
  }

  function Register(s: State, name: string, address: string): State {
    s.(peers := Insert(s.peers, Peer(s.nextSerial, name, address)), nextSerial := s.nextSerial + 1)
  }

  function Greeted(s: State, c: nat, header: Option<string>): State
    requires c in s.coroutines && s.coroutines[c].Greeting?
  {
    var p := s.coroutines[c];
    if Acceptable(s, p.wanted, header) then
      Attempted(Register(s, header.value, p.address), c, Some(Peer(s.nextSerial, header.value, p.address)))
    else Attempted(s, c, None)
  }

  function Failed(s: State, c: nat): State
    requires c in s.coroutines && (s.coroutines[c].Dialing? || s.coroutines[c].Greeting?)
  {
    End(Release(s, s.coroutines[c]), c, Threw)
  }

  function Woken(s: State, c: nat): State
    requires c in s.coroutines && s.coroutines[c].Waiting?
  {
    End(s, c, FoundOr(At(s.peers, s.coroutines[c].address)))
  }

  datatype Event =
    | Ask(c: nat, target: string, transport: bool)
    | Dial(c: nat, ok: bool)
    | Greet(c: nat, header: Option<string>)
    | Throw(c: nat)
    | Wake(c: nat)
    | KillWaiter(c: nat)
    | Remove(serial: nat)
    | Accept(name: string)
    | Learn(name: string, address: string)

  predicate Attempting(s: State, c: nat) { c in s.coroutines && (s.coroutines[c].Dialing? || s.coroutines[c].Greeting?) }

  predicate Enabled(s: State, e: Event) {
    match e
    case Ask(c, _, _) => c !in s.coroutines
    case Dial(c, _) => c in s.coroutines && s.coroutines[c].Dialing?
    case Greet(c, _) => c in s.coroutines && s.coroutines[c].Greeting?
    case Throw(c) => Attempting(s, c)
    case Wake(c) => c in s.coroutines && s.coroutines[c].Waiting? && s.coroutines[c].event in s.fired
    case KillWaiter(c) => c in s.coroutines && s.coroutines[c].Waiting?
    case _ => true
  }

  function Without(peers: seq<Peer>, serial: nat): (r: seq<Peer>)
    ensures forall p :: p in r <==> p in peers && p.serial != serial
  {
    if peers == [] then []
    else
      var last := peers[|peers| - 1];
      assert peers == peers[..|peers| - 1] + [last];
      if last.serial == serial then Without(peers[..|peers| - 1], serial) else Without(peers[..|peers| - 1], serial) + [last]
  }

  /** Every coroutine in any order; peers may disconnect, others may connect to us (they have no address), addresses may be learnt. */
  function Apply(s: State, e: Event): State
    requires Enabled(s, e)
  {
    match e
    case Ask(c, target, transport) => Start(s, c, target, transport)
    case Dial(c, ok) => Dialed(s, c, ok)
    case Greet(c, header) => Greeted(s, c, header)
    case Throw(c) => Failed(s, c)
    case Wake(c) => Woken(s, c)
    case KillWaiter(c) => End(s, c, Threw)
    case Remove(serial) => s.(peers := Without(s.peers, serial))
    case Accept(header) => if header != s.myName then Register(s, header, "") else s
    case Learn(name, address) => s.(known := s.known[name := address])
  }

  function Init(myName: string): State { State(myName, [], map[], map[], {}, 0, 0, map[]) }

  predicate Allowed(s: State, events: seq<Event>)
    decreases |events|
  {
    events == [] || (Enabled(s, events[0]) && Allowed(Apply(s, events[0]), events[1..]))
  }

  function Run(s: State, events: seq<Event>): State
    requires Allowed(s, events)
    decreases |events|
  {
    if events == [] then s else Run(Apply(s, events[0]), events[1..])
  }

  // ---- One attempt per address, and nobody is forgotten ----

  predicate Attempts(s: State, c: nat, address: string) { Attempting(s, c) && s.coroutines[c].address == address }

  /** A coroutine that attempts has its event in the table; one that waits has it there, or it is set. */
  ghost predicate CoroutineOk(s: State, c: nat) {
    && (Attempting(s, c) ==>
          var p := s.coroutines[c];
          p.address in s.connecting && s.connecting[p.address] == p.event)
    && (c in s.coroutines && s.coroutines[c].Waiting? ==>
          var p := s.coroutines[c];
          p.event in s.fired || (p.address in s.connecting && s.connecting[p.address] == p.event))
  }

  ghost predicate Tried(s: State, address: string) { exists c :: Attempts(s, c, address) }

  ghost predicate AddressOk(s: State, address: string) { address in s.connecting ==> Tried(s, address) }

  ghost predicate Alone(s: State, c: nat, d: nat, address: string) { Attempts(s, c, address) && Attempts(s, d, address) ==> c == d }

  ghost predicate Inv(s: State) {
    && (forall c: nat :: CoroutineOk(s, c))
    && (forall a: string :: AddressOk(s, a))
    && (forall c: nat, d: nat, a: string :: Alone(s, c, d, a))
  }

  /** A step that ends no attempt and begins none. */
  lemma SameTable(s: State, s1: State)
    requires Inv(s) && s1.connecting == s.connecting && s1.fired == s.fired
    requires forall c :: Attempting(s1, c) <==> Attempting(s, c)
    requires forall c :: Attempting(s1, c) && Attempting(s, c) ==>
               s1.coroutines[c].event == s.coroutines[c].event && s1.coroutines[c].address == s.coroutines[c].address
    requires forall c :: c in s1.coroutines && s1.coroutines[c].Waiting? ==>
               (c in s.coroutines && s1.coroutines[c] == s.coroutines[c])
               || (s1.coroutines[c].address in s.connecting && s.connecting[s1.coroutines[c].address] == s1.coroutines[c].event)
    ensures Inv(s1)
  {
    forall c: nat ensures CoroutineOk(s1, c) {
      assert CoroutineOk(s, c);
    }
    forall a: string ensures AddressOk(s1, a) {
      assert AddressOk(s, a);
      if a in s.connecting {
        var c :| Attempts(s, c, a);
        assert Attempts(s1, c, a);
      }
    }
    forall c: nat, d: nat, a: string ensures Alone(s1, c, d, a) { assert Alone(s, c, d, a); }
  }

  /** The end of an attempt. */
  lemma ReleaseInv(s: State, s1: State, c: nat)
    requires Inv(s) && Attempting(s, c)
    requires s1.fired == s.fired + {s.coroutines[c].event}
    requires s1.connecting == Release(s, s.coroutines[c]).connecting
    requires exists r :: s1.coroutines == s.coroutines[c := Ended(r)]
    ensures Inv(s1)
  {
    var p := s.coroutines[c];
    assert CoroutineOk(s, c);
    forall d: nat ensures CoroutineOk(s1, d) {
      assert CoroutineOk(s, d);
      assert Alone(s, c, d, p.address);
    }
    forall a: string ensures AddressOk(s1, a) {
      assert AddressOk(s, a);
      if a in s1.connecting {
        var d :| Attempts(s, d, a);
        assert Attempts(s1, d, a);
      }
    }
    forall d: nat, e: nat, a: string ensures Alone(s1, d, e, a) { assert Alone(s, d, e, a); }
  }

  lemma JoinInv(s: State, c: nat, name: string, address: string, transport: bool)
    requires Inv(s) && c !in s.coroutines
    ensures Inv(Join(s, c, name, address, transport))
  {
    var s1 := Join(s, c, name, address, transport);
    if !transport || address in s.connecting {
      SameTable(s, s1);
    } else {
      forall d: nat ensures CoroutineOk(s1, d) { assert CoroutineOk(s, d); }
      forall a: string ensures AddressOk(s1, a) {
        assert AddressOk(s, a);
        if a == address {
          assert Attempts(s1, c, a);
        } else if a in s.connecting {
          var d :| Attempts(s, d, a);
          assert Attempts(s1, d, a);
        }
      }
      forall d: nat, e: nat, a: string ensures Alone(s1, d, e, a) {
        assert Alone(s, d, e, a) && CoroutineOk(s, d) && CoroutineOk(s, e);
      }
    }
  }

  lemma AskInv(s: State, c: nat, target: string, transport: bool)
    requires Inv(s) && c !in s.coroutines
    ensures Inv(Start(s, c, target, transport))
  {
    if Named(s.peers, target).None? && target in s.known {
      JoinInv(s, c, target, s.known[target], transport);
    } else if Named(s.peers, target).None? && IsAddress(target) && At(s.peers, target).None? {
      JoinInv(s, c, "", target, transport);
    } else {
      SameTable(s, Start(s, c, target, transport));
    }
  }

  lemma WaiterInv(s: State, c: nat)
    requires Inv(s) && c in s.coroutines && s.coroutines[c].Waiting?
    ensures Inv(Woken(s, c)) && Inv(End(s, c, Threw))
  {
    SameTable(s, Woken(s, c));
    SameTable(s, End(s, c, Threw));
  }

  lemma OutsideInv(s: State, e: Event)
    requires Inv(s) && (e.Remove? || e.Accept? || e.Learn?)
    ensures Inv(Apply(s, e))
  {
    SameTable(s, Apply(s, e));
  }

  lemma DialInv(s: State, c: nat, ok: bool)
    requires Inv(s) && c in s.coroutines && s.coroutines[c].Dialing?
    ensures Inv(Dialed(s, c, ok))
  {
    if ok { SameTable(s, Dialed(s, c, ok)); } else { ReleaseInv(s, Dialed(s, c, ok), c); }
  }

  lemma InvStep(s: State, e: Event)
    requires Inv(s) && Enabled(s, e)
    ensures Inv(Apply(s, e))
  {
    match e
    case Ask(c, target, transport) => AskInv(s, c, target, transport);
    case Dial(c, ok) => DialInv(s, c, ok);
    case Greet(c, header) => ReleaseInv(s, Greeted(s, c, header), c);
    case Throw(c) => ReleaseInv(s, Failed(s, c), c);
    case Wake(c) => WaiterInv(s, c);
    case KillWaiter(c) => WaiterInv(s, c);
    case _ => OutsideInv(s, e);
  }

  lemma {:induction false} InvAlways(s: State, events: seq<Event>)
    requires Inv(s) && Allowed(s, events)
    ensures Inv(Run(s, events))
    decreases |events|
  {
    if events != [] {
      InvStep(s, events[0]);
      InvAlways(Apply(s, events[0]), events[1..]);
    }
  }

  ghost predicate Reachable(s: State) {
    exists myName, events :: Allowed(Init(myName), events) && Run(Init(myName), events) == s
  }

  lemma ReachableInv(s: State)
    requires Reachable(s)
    ensures Inv(s)
  {
    var myName, events :| Allowed(Init(myName), events) && Run(Init(myName), events) == s;
    InvAlways(Init(myName), events);
  }

  /** At most one attempt per address is under way, and an address is in the table exactly while there is one. */
  lemma SingleFlight(s: State, address: string, c: nat, d: nat)
    requires Reachable(s)
    ensures Attempts(s, c, address) && Attempts(s, d, address) ==> c == d
    ensures address in s.connecting <==> Tried(s, address)
  {
    ReachableInv(s);
    assert Alone(s, c, d, address) && AddressOk(s, address);
    if Tried(s, address) {
      var a :| Attempts(s, a, address);
      assert CoroutineOk(s, a);
    }
  }

  /** Nobody waits for nothing: a waiter can go on, or an attempt for its address is under way with the very event it waits on. */
  lemma NobodyStuck(s: State, c: nat)
    requires Reachable(s) && c in s.coroutines && s.coroutines[c].Waiting?
    ensures Enabled(s, Wake(c)) ||
            exists d :: Attempts(s, d, s.coroutines[c].address) && s.coroutines[d].event == s.coroutines[c].event
  {
    ReachableInv(s);
    var p := s.coroutines[c];
    assert CoroutineOk(s, c) && AddressOk(s, p.address);
    if p.event !in s.fired {
      var d :| Attempts(s, d, p.address);
      assert CoroutineOk(s, d);
    }
  }

  // ---- What an attempt gives to those who waited ----

  /** The end of an attempt, whatever it was, sets its event; a successful one has put the peer under its address first. */
  lemma AttemptEnds(s: State, c: nat, e: Event)
    requires Reachable(s) && Attempting(s, c) && Enabled(s, e)
    requires (e.Greet? && e.c == c) || e == Throw(c) || e == Dial(c, false)
    ensures var s1 := Apply(s, e);
      var p := s.coroutines[c];
      && p.event in s1.fired && p.address !in s1.connecting && s1.coroutines[c].Ended?
      && (forall d :: d in s.coroutines && s.coroutines[d].Waiting? && s.coroutines[d].address == p.address ==> Enabled(s1, Wake(d)))
      && (s1.coroutines[c].result.Found? ==>
            var peer := s1.coroutines[c].result.peer;
            && peer in s1.peers && peer.address == p.address && (p.wanted != "" ==> peer.name == p.wanted) && peer.name != s.myName
            && peer.name in s1.known && s1.known[peer.name] == p.address)
  {
    ReachableInv(s);
    var s1 := Apply(s, e);
    var p := s.coroutines[c];
    assert CoroutineOk(s, c);
    forall d | d in s.coroutines && s.coroutines[d].Waiting? && s.coroutines[d].address == p.address ensures Enabled(s1, Wake(d)) {
      assert CoroutineOk(s, d);
    }
  }

  predicate Stays(e: Event) { !e.Remove? }

  /** One step of a waiter whose address has a peer. */
  lemma WaiterStep(s: State, e: Event, c: nat, peer: Peer)
    requires Enabled(s, e) && Stays(e)
    requires c in s.coroutines && s.coroutines[c].Waiting? && peer in s.peers && peer.address == s.coroutines[c].address
    ensures var s1 := Apply(s, e);
      && c in s1.coroutines && peer in s1.peers
      && (s1.coroutines[c] == s.coroutines[c] || s1.coroutines[c] == Ended(Threw) || FoundAt(s1, c, peer.address))
  {
    if e.Ask? { AskSame(s, e.c, e.target, e.transport, c); }
  }

  predicate FoundAt(s: State, c: nat, address: string)
    requires c in s.coroutines
  {
    s.coroutines[c].Ended? && s.coroutines[c].result.Found? && s.coroutines[c].result.peer.address == address
  }

  /** Peers stay where they are until they are removed, so a waiter that comes to run meanwhile finds one at its address. */
  lemma {:induction false} WaiterFinds(s: State, events: seq<Event>, c: nat, peer: Peer)
    requires Allowed(s, events) && (forall i :: 0 <= i < |events| ==> Stays(events[i]))
    requires c in s.coroutines && s.coroutines[c].Waiting? && peer in s.peers && peer.address == s.coroutines[c].address
    ensures var s1 := Run(s, events);
      && c in s1.coroutines
      && (s1.coroutines[c] == s.coroutines[c] || s1.coroutines[c] == Ended(Threw) || FoundAt(s1, c, peer.address))
    decreases |events|
  {
    if events != [] {
      var s1 := Apply(s, events[0]);
      assert Stays(events[0]);
      WaiterStep(s, events[0], c, peer);
      assert forall i :: 0 <= i < |events[1..]| ==> events[1..][i] == events[i + 1];
      if s1.coroutines[c].Waiting? {
        WaiterFinds(s1, events[1..], c, peer);
      } else {
        EndedStays(s1, events[1..], c);
      }
    }
  }

  /** Asking concerns the coroutine that asks. */
  lemma AskSame(s: State, c: nat, target: string, transport: bool, d: nat)
    requires c !in s.coroutines && d in s.coroutines
    ensures var s1 := Start(s, c, target, transport); d in s1.coroutines && s1.coroutines[d] == s.coroutines[d] && s1.peers == s.peers
  {
  }

  lemma EndedStep(s: State, e: Event, c: nat)
    requires Enabled(s, e) && c in s.coroutines && s.coroutines[c].Ended?
    ensures c in Apply(s, e).coroutines && Apply(s, e).coroutines[c] == s.coroutines[c]
  {
    if e.Ask? { AskSame(s, e.c, e.target, e.transport, c); }
  }

  lemma {:induction false} EndedStays(s: State, events: seq<Event>, c: nat)
    requires Allowed(s, events) && c in s.coroutines && s.coroutines[c].Ended?
    ensures c in Run(s, events).coroutines && Run(s, events).coroutines[c] == s.coroutines[c]
    decreases |events|
  {
    if events != [] {
      EndedStep(s, events[0], c);
      EndedStays(Apply(s, events[0]), events[1..], c);
    }
  }

  function Asked(): seq<Event> { [Learn("bob", "//x"), Ask(0, "//x", true), Ask(1, "bob", true)] }

  function Answered(): seq<Event> { [Dial(0, true), Greet(0, Some("alice")), Wake(1)] }

  function WhileAsked(): State {
    State("me", [], map["bob" := "//x"], map["//x" := 0], {}, 1, 0, map[0 := Dialing("//x", "", 0), 1 := Waiting("//x", 0)])
  }

  lemma AskedRun()
    ensures Allowed(Init("me"), Asked()) && Run(Init("me"), Asked()) == WhileAsked()
  {
    assert IsAddress("//x") by { assert "//x"[0] == '/' && "//x"[1] == '/'; }
    assert "//x" != "bob" by { assert "//x"[0] != "bob"[0]; }
    var s1 := Apply(Init("me"), Learn("bob", "//x"));
    var s2 := Apply(s1, Ask(0, "//x", true));
    var s3 := Apply(s2, Ask(1, "bob", true));
    ThreeSteps(Init("me"), Learn("bob", "//x"), Ask(0, "//x", true), Ask(1, "bob", true));
    assert s3 == WhileAsked();
  }

  /** A coroutine that asks for a peer by name makes sure of the name in its own attempt only: when it waits for the attempt of another one, it is
      given whoever answered at that address. Here "bob" is asked for, and "alice" is returned. */
  lemma ByNameGetsAnother()
    ensures Allowed(Init("me"), Asked()) && Run(Init("me"), Asked()) == WhileAsked() && Asked()[2] == Ask(1, "bob", true)
    ensures Allowed(WhileAsked(), Answered()) && 1 in Run(WhileAsked(), Answered()).coroutines
    ensures Run(WhileAsked(), Answered()).coroutines[1] == Ended(Found(Peer(0, "alice", "//x")))
  {
    AskedRun();
    GreetedStep();
    WokenStep();
    ThreeSteps(WhileAsked(), Dial(0, true), Greet(0, Some("alice")), Wake(1));
  }

  lemma WokenStep()
    ensures Enabled(AfterGreeting(), Wake(1))
    ensures var s := Apply(AfterGreeting(), Wake(1)); 1 in s.coroutines && s.coroutines[1] == Ended(Found(Peer(0, "alice", "//x")))
  {
  }

  function AfterGreeting(): State {
    var peer := Peer(0, "alice", "//x");
    State("me", [peer], map["bob" := "//x", "alice" := "//x"], map[], {0}, 1, 1, map[0 := Ended(Found(peer)), 1 := Waiting("//x", 0)])
  }

  lemma GreetedStep()
    ensures Enabled(WhileAsked(), Dial(0, true)) && Enabled(Apply(WhileAsked(), Dial(0, true)), Greet(0, Some("alice")))
    ensures Apply(Apply(WhileAsked(), Dial(0, true)), Greet(0, Some("alice"))) == AfterGreeting()
  {
    assert "alice" != "me" by { assert |"alice"| != |"me"|; }
    var s1 := Apply(WhileAsked(), Dial(0, true));
    assert s1.coroutines[0] == Greeting("//x", "", 0);
    var s2 := Apply(s1, Greet(0, Some("alice")));
    assert s2.peers == AfterGreeting().peers;
    assert s2.connecting == map[];
  }

  lemma ThreeSteps(s: State, e0: Event, e1: Event, e2: Event)
    requires Enabled(s, e0) && Enabled(Apply(s, e0), e1) && Enabled(Apply(Apply(s, e0), e1), e2)
    ensures Allowed(s, [e0, e1, e2]) && Run(s, [e0, e1, e2]) == Apply(Apply(Apply(s, e0), e1), e2)
  {
    var s1 := Apply(s, e0);
    var s2 := Apply(s1, e1);
    RunFirst(s2, Apply(s2, e2), e2, []);
    RunFirst(s1, s2, e1, [e2]);
    RunFirst(s, s1, e0, [e1, e2]);
    assert [e2] + [] == [e2] && [e1] + [e2] == [e1, e2] && [e0] + [e1, e2] == [e0, e1, e2];
  }

  lemma RunFirst(s: State, s1: State, e: Event, rest: seq<Event>)
    requires Enabled(s, e) && s1 == Apply(s, e) && Allowed(s1, rest)
    ensures Allowed(s, [e] + rest) && Run(s, [e] + rest) == Run(s1, rest)
  {
    assert ([e] + rest)[1..] == rest;
  }

  // ---- When a connect by name returns the peer of that name ----

  /** A coroutine that is on its own attempt for a name, or has ended with a peer of that name if with any. */
  predicate Seeks(p: Phase, target: string) {
    match p
    case Dialing(_, wanted, _) => wanted == target
    case Greeting(_, wanted, _) => wanted == target
    case Waiting(_, _) => false
    case Ended(r) => r.Found? ==> r.peer.name == target
  }

  lemma SeeksStep(s: State, e: Event, c: nat, target: string)
    requires Enabled(s, e) && c in s.coroutines && Seeks(s.coroutines[c], target) && target != ""
    ensures c in Apply(s, e).coroutines && Seeks(Apply(s, e).coroutines[c], target)
  {
    if e.Ask? { AskSame(s, e.c, e.target, e.transport, c); }
  }

  lemma {:induction false} SeeksAlways(s: State, events: seq<Event>, c: nat, target: string)
    requires Allowed(s, events) && c in s.coroutines && Seeks(s.coroutines[c], target) && target != ""
    ensures c in Run(s, events).coroutines && Seeks(Run(s, events).coroutines[c], target)
    decreases |events|
  {
    if events != [] {
      SeeksStep(s, events[0], c, target);
      SeeksAlways(Apply(s, events[0]), events[1..], c, target);
    }
  }

  /** The coroutine ends with a peer of another name. */
  predicate EndsWithAnother(s: State, c: nat, target: string) {
    c in s.coroutines && s.coroutines[c].Ended? && s.coroutines[c].result.Found? && s.coroutines[c].result.peer.name != target
  }

  /** The run after the call has begun, if it is one, does not end with a peer of another name. */
  ghost predicate KeepsName(s: State, c: nat, target: string, events: seq<Event>) {
    var s1 := Start(s, c, target, true);
    Allowed(s1, events) ==> !EndsWithAnother(Run(s1, events), c, target)
  }

  lemma FreshNat(keys: set<nat>) returns (n: nat)
    ensures forall k :: k in keys ==> k < n
    decreases |keys|
  {
    if keys == {} {
      n := 0;
    } else {
      var k :| k in keys;
      var m := FreshNat(keys - {k});
      n := if m > k then m else k + 1;
      forall j | j in keys ensures j < n { assert j == k || j in keys - {k}; }
    }
  }

  function NamesLength(peers: seq<Peer>): nat { if peers == [] then 0 else |peers[0].name| + NamesLength(peers[1..]) }

  lemma {:induction false} NamesShort(peers: seq<Peer>, p: Peer)
    requires p in peers
    ensures |p.name| <= NamesLength(peers)
    decreases |peers|
  {
    if p != peers[0] {
      assert peers == [peers[0]] + peers[1..];
      NamesShort(peers[1..], p);
    }
  }

  /** A name that nobody has. */
  lemma FreshName(s: State, target: string) returns (x: string)
    ensures x != "" && x != target && x != s.myName && Named(s.peers, x).None?
  {
    var n := 1 + |target| + |s.myName| + NamesLength(s.peers);
    x := seq(n, i => 'x');
    assert |x| == n;
    if Named(s.peers, x).Some? { NamesShort(s.peers, Named(s.peers, x).value); }
  }

  /** What the waiter finds after somebody else's attempt has failed and a third coroutine has reached the address under the name x. */
  function Detour(c: nat, d: nat, d2: nat, x: string, address: string): seq<Event> {
    [Throw(d), Learn(x, address), Ask(d2, x, true), Dial(d2, true), Greet(d2, Some(x)), Wake(c)]
  }

  lemma RunOn(s: State, s1: State, e: Event, rest: seq<Event>, last: State)
    requires Enabled(s, e) && s1 == Apply(s, e) && Allowed(s1, rest) && Run(s1, rest) == last
    ensures Allowed(s, [e] + rest) && Run(s, [e] + rest) == last
  {
    assert ([e] + rest)[1..] == rest;
  }

  lemma ThreeOn(s0: State, s1: State, s2: State, s3: State, e0: Event, e1: Event, e2: Event, rest: seq<Event>, last: State)
    requires Enabled(s0, e0) && s1 == Apply(s0, e0) && Enabled(s1, e1) && s2 == Apply(s1, e1) && Enabled(s2, e2) && s3 == Apply(s2, e2)
    requires Allowed(s3, rest) && Run(s3, rest) == last
    ensures Allowed(s0, [e0, e1, e2] + rest) && Run(s0, [e0, e1, e2] + rest) == last
  {
    RunOn(s2, s3, e2, rest, last);
    RunOn(s1, s2, e1, [e2] + rest, last);
    RunOn(s0, s1, e0, [e1] + ([e2] + rest), last);
    assert [e0] + ([e1] + ([e2] + rest)) == [e0, e1, e2] + rest;
  }

  /** The first attempt fails, which sets the waiter's event. */
  lemma AttemptFails(s: State, c: nat, d: nat, x: string)
    requires c in s.coroutines && s.coroutines[c].Waiting? && Attempting(s, d) && c != d
    requires s.coroutines[d].address == s.coroutines[c].address && s.coroutines[d].event == s.coroutines[c].event
    ensures var s1 := Apply(Apply(s, Throw(d)), Learn(x, s.coroutines[c].address));
      && s1.coroutines == s.coroutines[d := Ended(Threw)] && s1.peers == s.peers && s1.myName == s.myName
      && s.coroutines[c].event in s1.fired && s.coroutines[c].address !in s1.connecting
      && x in s1.known && s1.known[x] == s.coroutines[c].address
  {
  }

  /** Another one reaches the address. */
  lemma AnotherReaches(s: State, d2: nat, x: string, address: string)
    requires d2 !in s.coroutines && x in s.known && s.known[x] == address && address !in s.connecting
    requires x != "" && x != s.myName && Named(s.peers, x).None?
    ensures var s1 := Apply(s, Ask(d2, x, true));
      && Enabled(s1, Dial(d2, true)) && Enabled(Apply(s1, Dial(d2, true)), Greet(d2, Some(x)))
      && var s3 := Apply(Apply(s1, Dial(d2, true)), Greet(d2, Some(x)));
      && s3.peers == Insert(s.peers, Peer(s.nextSerial, x, address)) && s.fired <= s3.fired
      && forall k :: k in s.coroutines ==> k in s3.coroutines && s3.coroutines[k] == s.coroutines[k]
  {
    var s1 := Apply(s, Ask(d2, x, true));
    assert s1.coroutines[d2] == Dialing(address, x, s.nextEvent);
    var s2 := Apply(s1, Dial(d2, true));
    assert s2.coroutines[d2] == Greeting(address, x, s.nextEvent);
  }

  lemma DetourRun(s: State, c: nat, d: nat, d2: nat, x: string, target: string)
    requires c in s.coroutines && s.coroutines[c].Waiting? && Attempting(s, d) && c != d && d2 !in s.coroutines
    requires s.coroutines[d].address == s.coroutines[c].address && s.coroutines[d].event == s.coroutines[c].event
    requires Named(s.peers, target).None? && Named(s.peers, x).None? && x != "" && x != target && x != s.myName
    ensures var events := Detour(c, d, d2, x, s.coroutines[c].address);
      Allowed(s, events) && EndsWithAnother(Run(s, events), c, target)
  {
    var address := s.coroutines[c].address;
    var s1 := Apply(s, Throw(d));
    var s2 := Apply(s1, Learn(x, address));
    AttemptFails(s, c, d, x);
    AnotherReaches(s2, d2, x, address);
    var s3 := Apply(s2, Ask(d2, x, true));
    var s4 := Apply(s3, Dial(d2, true));
    var s5 := Apply(s4, Greet(d2, Some(x)));
    assert s5.coroutines[c] == s.coroutines[c];
    assert Peer(s2.nextSerial, x, address) in s5.peers;
    var s6 := Apply(s5, Wake(c));
    ThreeOn(s3, s4, s5, s6, Dial(d2, true), Greet(d2, Some(x)), Wake(c), [], s6);
    var rest := [Dial(d2, true), Greet(d2, Some(x)), Wake(c)];
    assert rest + [] == rest;
    ThreeOn(s, s1, s2, s3, Throw(d), Learn(x, address), Ask(d2, x, true), rest, s6);
    assert [Throw(d), Learn(x, address), Ask(d2, x, true)] + rest == Detour(c, d, d2, x, address);
  }

  /** An attempt without a wanted name takes any name. */
  lemma UnnamedRun(s: State, c: nat, x: string)
    requires c in s.coroutines && s.coroutines[c].Dialing? && s.coroutines[c].wanted == "" && x != "" && x != s.myName
    ensures Allowed(s, [Dial(c, true), Greet(c, Some(x))]) && EndsWithAnother(Run(s, [Dial(c, true), Greet(c, Some(x))]), c, "")
  {
    var s1 := Apply(s, Dial(c, true));
    var s2 := Apply(s1, Greet(c, Some(x)));
    RunOn(s1, s2, Greet(c, Some(x)), [], s2);
    RunOn(s, s1, Dial(c, true), [Greet(c, Some(x))], s2);
    assert [Greet(c, Some(x))] + [] == [Greet(c, Some(x))] && [Dial(c, true)] + [Greet(c, Some(x))] == [Dial(c, true), Greet(c, Some(x))];
  }

  lemma SomeRunEndsWithAnother(s: State, c: nat, target: string) returns (events: seq<Event>)
    requires Reachable(s) && c !in s.coroutines && Named(s.peers, target).None? && target in s.known
    requires target == "" || s.known[target] in s.connecting
    ensures !KeepsName(s, c, target, events)
  {
    var x := FreshName(s, target);
    var s1 := Start(s, c, target, true);
    if s.known[target] in s.connecting {
      ReachableInv(s);
      assert AddressOk(s, s.known[target]);
      var d :| Attempts(s, d, s.known[target]);
      assert CoroutineOk(s, d);
      var d2 := FreshNat(s1.coroutines.Keys);
      DetourRun(s1, c, d, d2, x, target);
      events := Detour(c, d, d2, x, s.known[target]);
    } else {
      UnnamedRun(s1, c, x);
      events := [Dial(c, true), Greet(c, Some(x))];
    }
  }

  /** A connect by a known name returns the peer of that name in every run, if it returns any, exactly when no attempt for the address is under way at
      the call (and the name is not empty). */
  lemma ByNameExactly(s: State, c: nat, target: string)
    requires Reachable(s) && c !in s.coroutines && Named(s.peers, target).None? && target in s.known
    ensures (forall events :: KeepsName(s, c, target, events)) <==> target != "" && s.known[target] !in s.connecting
  {
    if target != "" && s.known[target] !in s.connecting {
      var s1 := Start(s, c, target, true);
      forall events ensures KeepsName(s, c, target, events) {
        if Allowed(s1, events) { SeeksAlways(s1, events, c, target); }
      }
    } else {
      var events := SomeRunEndsWithAnother(s, c, target);
    }
  }

  /** Whom a waiter is given when the attempt it waited for was answered and it is woken at once: the peer that answered, unless another one was at the
      address before. That has the name which the attempt wanted, if it wanted one. */
  lemma WaiterGetsAnswer(s: State, c: nat, d: nat, header: string)
    requires Reachable(s) && c in s.coroutines && s.coroutines[c].Waiting? && c != d
    requires d in s.coroutines && s.coroutines[d].Greeting? && s.coroutines[d].address == s.coroutines[c].address
    requires Acceptable(s, s.coroutines[d].wanted, Some(header)) && At(s.peers, s.coroutines[c].address).None?
    ensures var s1 := Apply(s, Greet(d, Some(header)));
      && Enabled(s1, Wake(c))
      && Apply(s1, Wake(c)).coroutines[c] == Ended(Found(Peer(s.nextSerial, header, s.coroutines[c].address)))
      && (s.coroutines[d].wanted != "" ==> header == s.coroutines[d].wanted)
  {
    ReachableInv(s);
    assert CoroutineOk(s, c) && CoroutineOk(s, d);
    var s1 := Apply(s, Greet(d, Some(header)));
    var p := Peer(s.nextSerial, header, s.coroutines[c].address);
    assert s1.peers == Insert(s.peers, p) && s1.coroutines[c] == s.coroutines[c];
    assert p in s1.peers;
    assert forall q :: q in s1.peers && q.address == p.address ==> q == p;
  }

  // ---- What connect returns at once ----

  /** Under one name the newest peer comes first. */
  ghost predicate NewestFirst(peers: seq<Peer>, bound: nat) {
    && (forall i :: 0 <= i < |peers| ==> peers[i].serial < bound)
    && (forall i, j :: 0 <= i < j < |peers| && peers[i].name == peers[j].name ==> peers[i].serial > peers[j].serial)
  }

  lemma {:induction false} NotBeforeItself(a: string)
    ensures !Before(a, a)
  {
    if a != "" { NotBeforeItself(a[1..]); }
  }

  lemma {:induction false} InsertNewest(peers: seq<Peer>, p: Peer)
    requires NewestFirst(peers, p.serial)
    ensures NewestFirst(Insert(peers, p), p.serial + 1)
    decreases |peers|
  {
    var r := Insert(peers, p);
    if peers == [] {
    } else if !Before(peers[0].name, p.name) {
      assert forall i :: 1 <= i < |r| ==> r[i] == peers[i - 1];
    } else {
      var tail := peers[1..];
      assert forall i :: 0 <= i < |tail| ==> tail[i] == peers[i + 1];
      InsertNewest(tail, p);
      NotBeforeItself(p.name);
      var rest := Insert(tail, p);
      assert r == [peers[0]] + rest;
      forall j | 1 <= j < |r| && r[j].name == r[0].name ensures r[0].serial > r[j].serial {
        assert r[j] == rest[j - 1] && r[j] in rest;
        var k :| 0 <= k < |tail| && tail[k] == r[j];
        assert peers[k + 1] == r[j];
      }
      assert forall i :: 1 <= i < |r| ==> r[i] == rest[i - 1];
    }
  }

  lemma NewestSnoc(before: seq<Peer>, last: Peer, bound: nat)
    requires NewestFirst(before, bound) && last.serial < bound
    requires forall p :: p in before && p.name == last.name ==> p.serial > last.serial
    ensures NewestFirst(before + [last], bound)
  {
    var r := before + [last];
    forall i, j | 0 <= i < j < |r| && r[i].name == r[j].name ensures r[i].serial > r[j].serial {
      if j == |before| { assert r[i] in before; }
    }
  }

  lemma {:induction false} WithoutNewest(peers: seq<Peer>, serial: nat, bound: nat)
    requires NewestFirst(peers, bound)
    ensures NewestFirst(Without(peers, serial), bound)
    decreases |peers|
  {
    if peers != [] {
      var init, last := peers[..|peers| - 1], peers[|peers| - 1];
      WithoutNewest(init, serial, bound);
      forall p | p in init && p.name == last.name ensures p.serial > last.serial {
        var k :| 0 <= k < |init| && init[k] == p;
        assert peers[k] == p;
      }
      if last.serial != serial { NewestSnoc(Without(init, serial), last, bound); }
    }
  }

  lemma GreetNewest(s: State, c: nat, header: Option<string>)
    requires NewestFirst(s.peers, s.nextSerial) && Enabled(s, Greet(c, header))
    ensures NewestFirst(Greeted(s, c, header).peers, Greeted(s, c, header).nextSerial)
  {
    if header.Some? { InsertNewest(s.peers, Peer(s.nextSerial, header.value, s.coroutines[c].address)); }
  }

  lemma NewestStep(s: State, e: Event)
    requires NewestFirst(s.peers, s.nextSerial) && Enabled(s, e)
    ensures NewestFirst(Apply(s, e).peers, Apply(s, e).nextSerial)
  {
    match e
    case Greet(c, header) => GreetNewest(s, c, header);
    case Accept(header) => InsertNewest(s.peers, Peer(s.nextSerial, header, ""));
    case Remove(serial) => WithoutNewest(s.peers, serial, s.nextSerial);
    case _ => assert Apply(s, e).peers == s.peers && Apply(s, e).nextSerial == s.nextSerial;
  }

  lemma {:induction false} NewestAlways(s: State, events: seq<Event>)
    requires NewestFirst(s.peers, s.nextSerial) && Allowed(s, events)
    ensures NewestFirst(Run(s, events).peers, Run(s, events).nextSerial)
    decreases |events|
  {
    if events != [] {
      NewestStep(s, events[0]);
      NewestAlways(Apply(s, events[0]), events[1..]);
    }
  }

  lemma ReachableNewest(s: State)
    requires Reachable(s)
    ensures NewestFirst(s.peers, s.nextSerial)
  {
    var myName, events :| Allowed(Init(myName), events) && Run(Init(myName), events) == s;
    NewestAlways(Init(myName), events);
  }

  /** Some peer has this name, or is at this address. */
  ghost predicate HasName(peers: seq<Peer>, name: string) { exists p :: p in peers && p.name == name }

  ghost predicate HasAddress(peers: seq<Peer>, address: string) { exists p :: p in peers && p.address == address }

  predicate Newest(peers: seq<Peer>, p: Peer) { p in peers && forall q :: q in peers && q.name == p.name ==> q.serial <= p.serial }

  lemma FirstIsNewest(peers: seq<Peer>, bound: nat)
    requires NewestFirst(peers, bound) && peers != []
    ensures Newest(peers, peers[0])
  {
  }

  lemma {:induction false} NamedIsNewest(peers: seq<Peer>, name: string, bound: nat)
    requires NewestFirst(peers, bound) && Named(peers, name).Some?
    ensures Newest(peers, Named(peers, name).value)
    decreases |peers|
  {
    if peers[0].name == name {
      FirstIsNewest(peers, bound);
    } else {
      var tail := peers[1..];
      assert forall i :: 0 <= i < |tail| ==> tail[i] == peers[i + 1];
      NamedIsNewest(tail, name, bound);
      assert peers == [peers[0]] + tail;
    }
  }

  /** Nothing changes but that c has ended so. */
  predicate EndsAtOnce(s: State, s1: State, c: nat, r: Result) { s1 == s.(coroutines := s.coroutines[c := Ended(r)]) }

  /** The address that a connect without a present peer goes to, and the name it wants there. */
  predicate GoesTo(s: State, target: string, address: string, wanted: string) {
    if target in s.known then address == s.known[target] && wanted == target else IsAddress(target) && address == target && wanted == ""
  }

  /** A connect to the name of a present peer ends at once with the newest peer of that name; to an address that is not a known name and where a peer is
      present, with a peer there; both whatever attempts are under way, and without a new one. */
  lemma AskFinds(s: State, c: nat, target: string, transport: bool) returns (p: Peer)
    requires Reachable(s) && c !in s.coroutines
    requires HasName(s.peers, target) || (target !in s.known && IsAddress(target) && HasAddress(s.peers, target))
    ensures EndsAtOnce(s, Apply(s, Ask(c, target, transport)), c, Found(p))
    ensures if HasName(s.peers, target) then p.name == target && Newest(s.peers, p) else p in s.peers && p.address == target
  {
    ReachableNewest(s);
    if HasName(s.peers, target) {
      assert Named(s.peers, target).Some?;
      NamedIsNewest(s.peers, target, s.nextSerial);
      p := Named(s.peers, target).value;
    } else {
      assert Named(s.peers, target).None?;
      p := At(s.peers, target).value;
    }
  }

  /** Any other connect ends at once with no peer exactly when it has no address to go to or no transport for it; otherwise it waits for the attempt that
      is under way for this address, or begins one, with the name it wants. */
  lemma AskSeeks(s: State, c: nat, target: string, transport: bool)
    requires Reachable(s) && c !in s.coroutines && !HasName(s.peers, target)
    requires !(target !in s.known && IsAddress(target) && HasAddress(s.peers, target))
    ensures var s1 := Apply(s, Ask(c, target, transport));
      && c in s1.coroutines
      && (s1.coroutines[c].Ended? <==> !transport || (target !in s.known && !IsAddress(target)))
      && (s1.coroutines[c].Ended? ==> EndsAtOnce(s, s1, c, NoPeer))
      && (!s1.coroutines[c].Ended? ==>
            exists address, wanted :: GoesTo(s, target, address, wanted) &&
              if address in s.connecting then s1 == s.(coroutines := s.coroutines[c := Waiting(address, s.connecting[address])])
              else
                && s1.coroutines == s.coroutines[c := Dialing(address, wanted, s.nextEvent)]
                && s1.connecting == s.connecting[address := s.nextEvent] && s1.nextEvent == s.nextEvent + 1
                && s1.peers == s.peers && s1.known == s.known && s1.fired == s.fired)
  {
    if Named(s.peers, target).Some? { assert HasName(s.peers, target); }
    if At(s.peers, target).Some? { assert HasAddress(s.peers, target); }
    if target in s.known {
      assert GoesTo(s, target, s.known[target], target);
    } else if IsAddress(target) {
      assert GoesTo(s, target, target, "");
    }
  }

  /** An attempt that has come to the headers succeeds exactly with a header that tells another name than ours, and the wanted one if one is wanted; the
      new peer then has that name and the address of the attempt, and is the newest. */
  lemma GreetExactly(s: State, c: nat, header: Option<string>)
    requires Reachable(s) && Enabled(s, Greet(c, header))
    ensures var k, s1 := s.coroutines[c], Apply(s, Greet(c, header));
      if header.Some? && header.value != s.myName && (k.wanted == "" || k.wanted == header.value) then
        var p := Peer(s.nextSerial, header.value, k.address);
        && s1.coroutines == s.coroutines[c := Ended(Found(p))] && Newest(s1.peers, p)
        && (forall q :: q in s1.peers <==> q == p || q in s.peers) && s1.known == s.known[header.value := k.address]
      else s1.coroutines == s.coroutines[c := Ended(NoPeer)] && s1.peers == s.peers && s1.known == s.known
  {
    ReachableNewest(s);
  }

  /** Every other step moves the one coroutine it is about: a transport that gives a channel goes on to the headers, one that gives none ends with no
      peer, an exception or a kill ends as such, and a woken waiter ends with a peer at its address exactly when there is one. */
  lemma StepEnds(s: State, e: Event)
    requires Enabled(s, e) && !e.Ask? && !e.Greet?
    ensures var after := Apply(s, e).coroutines;
      match e
      case Dial(c, ok) =>
        var k := s.coroutines[c];
        after == s.coroutines[c := if ok then Greeting(k.address, k.wanted, k.event) else Ended(NoPeer)]
      case Throw(c) => after == s.coroutines[c := Ended(Threw)]
      case KillWaiter(c) => after == s.coroutines[c := Ended(Threw)]
      case Wake(c) =>
        if HasAddress(s.peers, s.coroutines[c].address) then
          exists p :: p in s.peers && p.address == s.coroutines[c].address && after == s.coroutines[c := Ended(Found(p))]
        else after == s.coroutines[c := Ended(NoPeer)]
      case _ => after == s.coroutines
  {
    if e.Wake? {
      var found := At(s.peers, s.coroutines[e.c].address);
      if found.Some? { assert HasAddress(s.peers, s.coroutines[e.c].address); }
    }
  }

  // ---- The object ----

  /** connect() and preparePeer(), cut where they block. */
  class RpcPrivate {
    const myName: string
    var peers: seq<Peer>
    var known: map<string, string>
    var connecting: map<string, nat>
    var fired: set<nat>
    var nextEvent: nat
    var nextSerial: nat
    var coroutines: map<nat, Phase>

    ghost function Now(): State
      reads this
    {
      State(myName, peers, known, connecting, fired, nextEvent, nextSerial, coroutines)
    }

    constructor (myName: string)
      ensures Now() == Init(myName)
    {
      this.myName := myName;
      peers, known, connecting, fired, nextEvent, nextSerial, coroutines := [], map[], map[], {}, 0, 0, map[];
    }

    method PeerNamed(name: string) returns (r: Option<Peer>)
      ensures r == Named(peers, name)
    {
      for i := 0 to |peers|
        invariant Named(peers, name) == Named(peers[i..], name)
      {
        assert peers[i..][1..] == peers[i + 1..];
        if peers[i].name == name { return Some(peers[i]); }
      }
      r := None;
    }

    method PeerAt(address: string) returns (r: Option<Peer>)
      ensures r == At(peers, address)
    {
      for i := 0 to |peers|
        invariant At(peers, address) == At(peers[i..], address)
      {
        assert peers[i..][1..] == peers[i + 1..];
        if peers[i].address == address { return Some(peers[i]); }
      }
      r := None;
    }

    method Finish(c: nat, r: Result)
      modifies this`coroutines
      ensures Now() == End(old(Now()), c, r)
    {
      coroutines := coroutines[c := Ended(r)];
    }

    /** connect(), up to its first block */
    method Connect(c: nat, target: string, transport: bool)
      modifies this`coroutines, this`connecting, this`nextEvent
      ensures Now() == Start(old(Now()), c, target, transport)
    {
      var peer := PeerNamed(target);
      if peer.Some? {
        Finish(c, Found(peer.value));
        return;
      }
      var peerName, peerAddress := "", target;
      if target in known {
        peerName, peerAddress := target, known[target];
      } else if IsAddress(target) {
        peer := PeerAt(target);
        if peer.Some? {
          Finish(c, Found(peer.value));
          return;
        }
      } else {
        Finish(c, NoPeer);
        return;
      }
      if !transport {
        Finish(c, NoPeer);
      } else if peerAddress in connecting {
        coroutines := coroutines[c := Waiting(peerAddress, connecting[peerAddress])];
      } else {
        coroutines := coroutines[c := Dialing(peerAddress, peerName, nextEvent)];
        connecting := connecting[peerAddress := nextEvent];
        nextEvent := nextEvent + 1;
      }
    }

    /** The event is set and leaves the table. */
    method ReleaseEvent(p: Phase)
      requires p.Dialing? || p.Greeting?
      modifies this`fired, this`connecting
      ensures Now() == Release(old(Now()), p)
    {
      fired := fired + {p.event};
      connecting := map a | a in connecting && a != p.address :: connecting[a];
    }

    method EndAttempt(c: nat, peer: Option<Peer>)
      requires Attempting(Now(), c)
      modifies this`coroutines, this`fired, this`connecting, this`known
      ensures Now() == Attempted(old(Now()), c, peer)
    {
      var p := coroutines[c];
      ReleaseEvent(p);
      if peer.Some? { known := known[peer.value.name := p.address]; }
      Finish(c, if peer.Some? then Found(peer.value) else NoPeer);
    }

    /** The transport has returned a channel, or none. */
    method TransportDone(c: nat, ok: bool)
      requires c in coroutines && coroutines[c].Dialing?
      modifies this`coroutines, this`fired, this`connecting, this`known
      ensures Now() == Dialed(old(Now()), c, ok)
    {
      if ok {
        coroutines := coroutines[c := Greeting(coroutines[c].address, coroutines[c].wanted, coroutines[c].event)];
      } else {
        EndAttempt(c, None);
      }
    }

    /** peers.insert */
    method InsertPeer(p: Peer)
      modifies this`peers
      ensures peers == Insert(old(peers), p)
    {
      var i := 0;
      while i < |peers| && Before(peers[i].name, p.name)
        invariant 0 <= i <= |peers|
        invariant Insert(peers, p) == peers[..i] + Insert(peers[i..], p)
      {
        ghost var rest := Insert(peers[i + 1..], p);
        assert peers[i..][1..] == peers[i + 1..];
        assert peers[..i] + ([peers[i]] + rest) == peers[..i + 1] + rest;
        i := i + 1;
      }
      assert peers[..i] + ([p] + peers[i..]) == peers[..i] + [p] + peers[i..];
      peers := peers[..i] + [p] + peers[i..];
    }

    /** preparePeer, from its receive on: the header of the other side has come, or nothing readable has. */
    method HeaderDone(c: nat, header: Option<string>)
      requires c in coroutines && coroutines[c].Greeting?
      modifies this`coroutines, this`fired, this`connecting, this`known, this`peers, this`nextSerial
      ensures Now() == Greeted(old(Now()), c, header)
    {
      var p := coroutines[c];
      if header.None? || (p.wanted != "" && p.wanted != header.value) || myName == header.value {
        EndAttempt(c, None);
        return;
      }
      var peer := Peer(nextSerial, header.value, p.address);
      nextSerial := nextSerial + 1;
      InsertPeer(peer);
      EndAttempt(c, Some(peer));
    }

    /** The handler of every exception of the attempt. */
    method AttemptThrew(c: nat)
      requires Attempting(Now(), c)
      modifies this`coroutines, this`fired, this`connecting
      ensures Now() == Failed(old(Now()), c)
    {
      ReleaseEvent(coroutines[c]);
      Finish(c, Threw);
    }

    /** A waiter goes on after the event. */
    method WaiterResumes(c: nat)
      requires c in coroutines && coroutines[c].Waiting?
      modifies this`coroutines
      ensures Now() == Woken(old(Now()), c)
    {
      var peer := PeerAt(coroutines[c].address);
      Finish(c, if peer.Some? then Found(peer.value) else NoPeer);
    }

    /** removePeer: the peer with this identity, if it is there. */
    method RemovePeer(serial: nat)
      modifies this`peers
      ensures peers == Without(old(peers), serial)
    {
      var left: seq<Peer> := [];
      for i := 0 to |peers|
        invariant left == Without(peers[..i], serial)
      {
        assert peers[..i + 1][..i] == peers[..i];
        if peers[i].serial != serial { left := left + [peers[i]]; }
      }
      assert peers[..|peers|] == peers;
      peers := left;
    }
  }
}
