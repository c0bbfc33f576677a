/** Who is served next: the turns of the getters, what each of them is handed, and who is refused. */
module BlockingQueueTurns {
  import opened BlockingQueue

  /** The getters wait in the order of their calls; the hub's own get is none of them. */
  predicate Lined<T>(s: State<T>) {
    && Rising(s.getters, s.next)
    && (s.hub.Getting? ==>
          s.hub.getter.ticket < s.next && Apart(s.getters, s.hub.getter.ticket))
  }

  lemma RisingAppend(getters: seq<Getter>, g: Getter)
    requires Rising(getters, g.ticket)
    ensures Rising(getters + [g], g.ticket + 1)
  {
  }

  lemma RisingWithout(getters: seq<Getter>, cut: nat, bound: nat)
    requires Rising(getters, bound) && cut < |getters|
    ensures Rising(getters[..cut] + getters[cut + 1..], bound)
  {
    var l := getters[..cut] + getters[cut + 1..];
    assert forall i :: 0 <= i < |l| ==> l[i] == getters[if i < cut then i else i + 1];
  }

  /** What one step does to the waiting getters: nothing, the first one goes, one is dropped, or one joins at the end. */
  predicate GettersMove<T>(s: State<T>, e: Event<T>, s1: State<T>) {
    || s1.getters == s.getters
    || (s.getters != [] && s1.getters == s.getters[1..])
    || (e.DropGetter? && e.index < |s.getters| && s1.getters == s.getters[..e.index] + s.getters[e.index + 1..])
    || (e.Get? && e.block && s.items == [] && s1.next == s.next + 1 && s1.getters == s.getters + [Getter(s.next, e.peek)])
  }

  lemma CallsMove<T>(s: State<T>, e: Event<T>)
    requires Enabled(s, e) && (e.Put? || e.Get? || e.DropGetter? || e.DropPutter?)
    ensures GettersMove(s, e, Apply(s, e)) && s.next <= Apply(s, e).next && Apply(s, e).hub == s.hub
  {
  }

  /** The hub holds the get it held before, or the one it has just been called with. */
  predicate HubHolds<T>(s: State<T>, s1: State<T>) {
    s1.hub.Getting? ==>
      || (s.hub.Getting? && s1.hub.getter == s.hub.getter)
      || (s1.hub.getter.ticket == s.next < s1.next && s1.getters == s.getters)
  }

  lemma HubCallMoves<T>(s: State<T>, e: Event<T>)
    requires Enabled(s, e) && (e.HubPut? || e.HubGet?)
    ensures GettersMove(s, e, Apply(s, e)) && s.next <= Apply(s, e).next && HubHolds(s, Apply(s, e))
  {
  }

  lemma HubTurnMoves<T>(s: State<T>)
    requires Enabled(s, HubTurn)
    ensures GettersMove(s, HubTurn, Apply(s, HubTurn)) && s.next <= Apply(s, HubTurn).next && HubHolds(s, Apply(s, HubTurn))
  {
  }

  lemma StepMoves<T>(s: State<T>, e: Event<T>)
    requires Enabled(s, e)
    ensures GettersMove(s, e, Apply(s, e)) && s.next <= Apply(s, e).next && HubHolds(s, Apply(s, e))
  {
    if e.HubTurn? { HubTurnMoves(s); } else if e.HubPut? || e.HubGet? { HubCallMoves(s, e); } else { CallsMove(s, e); }
  }

  lemma RisingMove<T>(s: State<T>, e: Event<T>, s1: State<T>)
    requires Rising(s.getters, s.next) && GettersMove(s, e, s1) && s.next <= s1.next
    ensures Rising(s1.getters, s1.next)
  {
    if s1.getters == s.getters {
    } else if s.getters != [] && s1.getters == s.getters[1..] {
      RisingWithout(s.getters, 0, s.next);
      assert s.getters[..0] + s.getters[1..] == s1.getters;
    } else if e.DropGetter? {
      RisingWithout(s.getters, e.index, s.next);
    } else {
      RisingAppend(s.getters, Getter(s.next, e.peek));
    }
  }

  predicate Apart(getters: seq<Getter>, ticket: nat) { forall j :: 0 <= j < |getters| ==> getters[j].ticket != ticket }

  lemma ApartMove<T>(s: State<T>, e: Event<T>, s1: State<T>, ticket: nat)
    requires Apart(s.getters, ticket) && GettersMove(s, e, s1) && ticket < s.next
    ensures Apart(s1.getters, ticket)
  {
  }

  lemma LinedMove<T>(s: State<T>, e: Event<T>, s1: State<T>)
    requires Lined(s) && GettersMove(s, e, s1) && s.next <= s1.next && HubHolds(s, s1)
    ensures Lined(s1)
  {
    RisingMove(s, e, s1);
    if s1.hub.Getting? && s.hub.Getting? && s1.hub.getter == s.hub.getter { ApartMove(s, e, s1, s.hub.getter.ticket); }
  }

  lemma LinedStep<T>(s: State<T>, e: Event<T>)
    requires Lined(s) && Enabled(s, e)
    ensures Lined(Apply(s, e))
  {
    StepMoves(s, e);
    LinedMove(s, e, Apply(s, e));
  }

  lemma {:induction false} LinedAlways<T>(s: State<T>, events: seq<Event<T>>)
    requires Lined(s) && Allowed(s, events)
    ensures Lined(Run(s, events))
    decreases |events|
  {
    if events != [] {
      LinedStep(s, events[0]);
      LinedAlways(Apply(s, events[0]), events[1..]);
    }
  }

  /** One step serves at most one caller: the getter at the front, the hub's own, or one that has just called. */
  ghost predicate ServesOne<T>(s: State<T>, s1: State<T>) {
    || s1.served == s.served
    || (s.served < s1.served && |s1.served| == |s.served| + 1
        && var t := s1.served[|s.served|].ticket;
           || (s.getters != [] && t == s.getters[0].ticket && s1.getters == s.getters[1..])
           || (s.hub.Getting? && t == s.hub.getter.ticket)
           || (t == s.next && s1.next == s.next + 1))
  }

  lemma CallServes<T>(s: State<T>, e: Event<T>)
    requires Enabled(s, e) && (e.Put? || e.Get? || e.DropGetter? || e.DropPutter?)
    ensures ServesOne(s, Apply(s, e))
  {
  }

  lemma HubCallServes<T>(s: State<T>, e: Event<T>)
    requires Enabled(s, e) && (e.HubPut? || e.HubGet?)
    ensures ServesOne(s, Apply(s, e))
  {
  }

  lemma HubTurnServes<T>(s: State<T>)
    requires Enabled(s, HubTurn)
    ensures ServesOne(s, Apply(s, HubTurn))
  {
  }

  lemma StepServes<T>(s: State<T>, e: Event<T>)
    requires Enabled(s, e)
    ensures ServesOne(s, Apply(s, e))
  {
    if e.HubTurn? { HubTurnServes(s); } else if e.HubPut? || e.HubGet? { HubCallServes(s, e); } else { CallServes(s, e); }
  }

  /** In every run, whoever is served out of the queue of waiters has waited longest: nobody who called before it waits on. */
  lemma ServedInTurn<T>(s: State<T>, maxsize: int, events: seq<Event<T>>, e: Event<T>, g: Getter)
    requires Allowed(Init(maxsize), events) && s == Run(Init(maxsize), events) && Enabled(s, e)
    requires g in s.getters
    ensures var s1 := Apply(s, e);
      s1.served != s.served ==>
        && s.served < s1.served && |s1.served| == |s.served| + 1
        && (s1.served[|s.served|].ticket == g.ticket ==> forall w :: w in s1.getters ==> g.ticket < w.ticket)
  {
    LinedAlways(Init(maxsize), events);
    var s1 := Apply(s, e);
    StepServes(s, e);
    var k :| 0 <= k < |s.getters| && s.getters[k] == g;
    if s1.served != s.served && s1.served[|s.served|].ticket == g.ticket {
      assert s1.getters == s.getters[1..];
      assert k == 0;
    }
  }

  /** The bound of a queue is the one it was made with, for good; every bound up to 0 is none. */
  lemma {:induction false} BoundKept<T>(s: State<T>, events: seq<Event<T>>)
    requires Allowed(s, events)
    ensures Run(s, events).maxsize == s.maxsize
    ensures forall bound :: s == Init(bound) ==> (if bound <= 0 then Run(s, events).maxsize == -1 else Run(s, events).maxsize == bound)
    decreases |events|
  {
    if events != [] { BoundKept(Apply(s, events[0]), events[1..]); }
  }

  // ---- A get that passes those that wait ----

  /** Everybody who was served called before everybody who waits. */
  predicate TurnsKept<T>(s: State<T>) {
    forall i, j :: 0 <= i < |s.served| && 0 <= j < |s.getters| ==> s.served[i].ticket < s.getters[j].ticket
  }

  /** This step lets no get pass a waiting one: a get that is called finds nothing to take before those that wait, and the hub's get, which lets
      putters in first, takes nothing that an older one waits for. */
  predicate WaitsItsTurn<T>(s: State<T>, e: Event<T>) {
    && (e.Get? || e.HubGet? ==> s.items == [] || s.getters == [])
    && (e.HubTurn? && s.hub.Getting? && s.items != [] && s.getters != [] ==> s.hub.getter.ticket < s.getters[0].ticket)
  }

  lemma ServeTurn<T>(s: State<T>, ticket: nat, peek: bool)
    requires TurnsKept(s) && s.items != []
    ensures TurnsKept(Serve(s, ticket, peek)) <==> forall j :: 0 <= j < |s.getters| ==> ticket < s.getters[j].ticket
  {
    var s1 := Serve(s, ticket, peek);
    assert s1.served[|s.served|].ticket == ticket;
    assert forall i :: 0 <= i < |s.served| ==> s1.served[i] == s.served[i];
  }

  lemma SameTurns<T>(s: State<T>, s1: State<T>)
    requires TurnsKept(s) && s1.served == s.served && s1.getters == s.getters
    ensures TurnsKept(s1)
  {
  }

  lemma WakeTurn<T>(s: State<T>)
    requires Lined(s) && TurnsKept(s) && s.getters != [] && s.items != []
    ensures TurnsKept(Wake(s))
  {
    var s1 := s.(getters := s.getters[1..]);
    assert forall j :: 0 <= j < |s1.getters| ==> s1.getters[j] == s.getters[j + 1];
    assert TurnsKept(s1);
    ServeTurn(s1, s.getters[0].ticket, s.getters[0].peek);
  }

  lemma DropTurn<T>(s: State<T>, k: nat)
    requires TurnsKept(s) && k < |s.getters|
    ensures TurnsKept(Apply(s, DropGetter(k)))
  {
    var l := s.getters[..k] + s.getters[k + 1..];
    assert forall j :: 0 <= j < |l| ==> l[j] == s.getters[if j < k then j else j + 1];
  }

  /** A get called by a greenlet passes those that wait exactly when it finds an item before them. */
  lemma GetPassesIffItems<T>(s: State<T>, peek: bool, block: bool)
    requires Lined(s) && TurnsKept(s) && (forall i :: 0 <= i < |s.served| ==> s.served[i].ticket < s.next)
    ensures TurnsKept(GetStep(s, peek, block)) <==> s.items == [] || s.getters == []
  {
    var s1 := CallGet(s, peek);
    var s2 := if s.putters != [] && !peek then Schedule(s1) else s1;
    SameTurns(s, s2);
    if s.items != [] {
      ServeTurn(s2, s.next, peek);
      if s.getters != [] { assert s.getters[0].ticket < s.next; }
    }
  }

  lemma HubGetTurn<T>(s: State<T>, g: Getter)
    requires Lined(s) && TurnsKept(s)
    ensures TurnsKept(HubGetRest(s, g)) <==> (s.items != [] && s.getters != [] ==> g.ticket < s.getters[0].ticket)
  {
    if s.items != [] {
      ServeTurn(s, g.ticket, g.peek);
      SameTurns(s, s);
    } else if s.putters != [] {
      SameTurns(s, HubGetRest(s, g));
    }
  }

  /** Tickets that were served are old. */
  predicate ServedBefore<T>(s: State<T>) { forall i :: 0 <= i < |s.served| ==> s.served[i].ticket < s.next }

  lemma ServedBeforeMove<T>(s: State<T>, s1: State<T>)
    requires Lined(s) && ServedBefore(s) && ServesOne(s, s1) && s.next <= s1.next
    ensures ServedBefore(s1)
  {
    forall i | 0 <= i < |s1.served| ensures s1.served[i].ticket < s1.next {
      if i < |s.served| { assert s1.served[i] == s.served[i]; }
    }
  }

  lemma ServedBeforeStep<T>(s: State<T>, e: Event<T>)
    requires Lined(s) && ServedBefore(s) && Enabled(s, e)
    ensures ServedBefore(Apply(s, e))
  {
    StepServes(s, e);
    StepMoves(s, e);
    ServedBeforeMove(s, Apply(s, e));
  }

  lemma HubTurnTurn<T>(s: State<T>)
    requires Lined(s) && TurnsKept(s) && Enabled(s, HubTurn)
    ensures TurnsKept(Apply(s, HubTurn)) <==> WaitsItsTurn(s, HubTurn)
  {
    match s.hub
    case Getting(g) => HubGetTurn(s, g);
    case Putting(i) =>
      if s.getters != [] && s.items != [] && |s.items| >= s.maxsize { WakeTurn(s); } else { SameTurns(s, Apply(s, HubTurn)); }
    case AtMid =>
      if s.getters != [] && s.items != [] { WakeTurn(s); } else { SameTurns(s, Apply(s, HubTurn)); }
    case _ =>
      if s.getters != [] && s.items != [] && !(s.putters != [] && Room(s)) { WakeTurn(s); } else { SameTurns(s, Apply(s, HubTurn)); }
  }

  lemma HubPutTurn<T>(s: State<T>, value: T)
    requires Lined(s) && TurnsKept(s)
    ensures TurnsKept(HubPutStep(s, value))
  {
    var s1 := CallPut(s, value).(hub := Putting(Item(s.next, value)));
    if !Room(s) && s.getters != [] && s.items != [] && |s.items| >= s.maxsize {
      WakeTurn(s1);
    } else {
      SameTurns(s, HubPutStep(s, value));
    }
  }

  lemma HubGetStepTurn<T>(s: State<T>, peek: bool)
    requires Lined(s) && TurnsKept(s) && ServedBefore(s)
    ensures TurnsKept(HubGetStep(s, peek)) <==> s.items == [] || s.getters == []
  {
    if s.items != [] {
      GetPassesIffItems(s, peek, false);
    } else {
      SameTurns(s, HubGetStep(s, peek));
    }
  }

  /** One step keeps the turns exactly when it waits its turn. */
  lemma TurnStep<T>(s: State<T>, e: Event<T>)
    requires Lined(s) && TurnsKept(s) && ServedBefore(s) && Enabled(s, e)
    ensures TurnsKept(Apply(s, e)) <==> WaitsItsTurn(s, e)
  {
    match e
    case Put(v, block) => SameTurns(s, PutStep(s, v, block));
    case Get(peek, block) => GetPassesIffItems(s, peek, block);
    case DropGetter(k) => DropTurn(s, k);
    case DropPutter(k) => SameTurns(s, Apply(s, e));
    case HubPut(v) => HubPutTurn(s, v);
    case HubGet(peek) => HubGetStepTurn(s, peek);
    case HubTurn => HubTurnTurn(s);
  }

  predicate PatientRun<T>(s: State<T>, events: seq<Event<T>>)
    requires Allowed(s, events)
    decreases |events|
  {
    events == [] || (WaitsItsTurn(s, events[0]) && PatientRun(Apply(s, events[0]), events[1..]))
  }

  predicate TurnsKeptRun<T>(s: State<T>, events: seq<Event<T>>)
    requires Allowed(s, events)
    decreases |events|
  {
    TurnsKept(s) && (events == [] || TurnsKeptRun(Apply(s, events[0]), events[1..]))
  }

  /** Gets, of greenlets and of the hub, are served in the order of the calls all through a run exactly when every step of it waits its turn. */
  lemma {:induction false} TurnsAlways<T>(s: State<T>, events: seq<Event<T>>)
    requires Lined(s) && TurnsKept(s) && ServedBefore(s) && Allowed(s, events)
    ensures TurnsKeptRun(s, events) <==> PatientRun(s, events)
    decreases |events|
  {
    if events != [] {
      var s1 := Apply(s, events[0]);
      TurnStep(s, events[0]);
      LinedStep(s, events[0]);
      ServedBeforeStep(s, events[0]);
      if WaitsItsTurn(s, events[0]) {
        TurnsAlways(s1, events[1..]);
      } else {
        assert !TurnsKeptRun(s1, events[1..]);
      }
    }
  }

  // ---- What is handed out ----

  /** Everybody, peeks included, is handed the oldest item that nobody has taken before. */
  ghost predicate HeadHanded<T>(s: State<T>, i: nat)
    requires i < |s.served|
  {
    var taken := |Taken(s.served[..i])|;
    taken < |s.entered| && s.served[i].item == s.entered[taken]
  }

  ghost predicate HeadsHanded<T>(s: State<T>) { Fifo(s) && forall i :: 0 <= i < |s.served| ==> HeadHanded(s, i) }

  lemma HeadsServe<T>(s: State<T>, ticket: nat, peek: bool)
    requires HeadsHanded(s) && s.items != []
    ensures HeadsHanded(Serve(s, ticket, peek))
  {
    var s1 := Serve(s, ticket, peek);
    ServeFifo(s, ticket, peek);
    forall i | 0 <= i < |s1.served| ensures HeadHanded(s1, i) {
      if i < |s.served| {
        assert HeadHanded(s, i) && s1.served[..i] == s.served[..i];
      } else {
        assert s1.served[..i] == s.served;
      }
    }
  }

  lemma HeadsEnter<T>(s: State<T>, i: Item<T>)
    requires HeadsHanded(s)
    ensures HeadsHanded(Enter(s, i))
  {
    EnterFifo(s, i);
    assert forall k :: 0 <= k < |s.served| && HeadHanded(s, k) ==> HeadHanded(Enter(s, i), k);
  }

  lemma HeadsSame<T>(s: State<T>, s1: State<T>)
    requires HeadsHanded(s) && s1.served == s.served && s1.entered == s.entered && s1.items == s.items
    ensures HeadsHanded(s1)
  {
    assert forall k :: 0 <= k < |s.served| && HeadHanded(s, k) ==> HeadHanded(s1, k);
  }

  lemma HeadsWake<T>(s: State<T>)
    requires HeadsHanded(s) && s.getters != [] && s.items != []
    ensures HeadsHanded(Wake(s))
  {
    var s1 := s.(getters := s.getters[1..]);
    HeadsSame(s, s1);
    HeadsServe(s1, s.getters[0].ticket, s.getters[0].peek);
  }

  lemma HeadsAdmit<T>(s: State<T>)
    requires HeadsHanded(s) && s.putters != []
    ensures HeadsHanded(Admit(s))
  {
    var s1 := s.(putters := s.putters[1..]);
    HeadsSame(s, s1);
    HeadsEnter(s1, s.putters[0]);
  }

  lemma HeadsPut<T>(s: State<T>, value: T, block: bool)
    requires HeadsHanded(s)
    ensures HeadsHanded(PutStep(s, value, block))
  {
    var i, s1 := Item(s.next, value), CallPut(s, value);
    HeadsSame(s, s1);
    if Room(s) {
      HeadsEnter(s1, i);
      HeadsSame(Enter(s1, i), PutStep(s, value, block));
    } else {
      HeadsSame(s1, PutStep(s, value, block));
    }
  }

  lemma HeadsGet<T>(s: State<T>, peek: bool, block: bool)
    requires HeadsHanded(s)
    ensures HeadsHanded(GetStep(s, peek, block))
  {
    var s1 := CallGet(s, peek);
    if s.items != [] {
      var s2 := if s.putters != [] && !peek then Schedule(s1) else s1;
      HeadsSame(s, s2);
      HeadsServe(s2, s.next, peek);
    } else {
      HeadsSame(s, GetStep(s, peek, block));
    }
  }

  lemma HeadsHubPut<T>(s: State<T>, i: Item<T>)
    requires HeadsHanded(s)
    ensures HeadsHanded(HubPutRest(s, i))
  {
    if s.getters != [] && s.items != [] && |s.items| >= s.maxsize {
      HeadsWake(s);
      HeadsSame(Wake(s), HubPutRest(s, i));
    } else if |s.items| < s.maxsize {
      HeadsEnter(s, i);
      HeadsSame(Enter(s, i), HubPutRest(s, i));
    } else {
      HeadsSame(s, HubPutRest(s, i));
    }
  }

  lemma HeadsHubGet<T>(s: State<T>, g: Getter)
    requires HeadsHanded(s)
    ensures HeadsHanded(HubGetRest(s, g))
  {
    if s.items != [] {
      HeadsServe(s, g.ticket, g.peek);
      HeadsSame(Serve(s, g.ticket, g.peek), HubGetRest(s, g));
    } else if s.putters != [] {
      HeadsAdmit(s);
      HeadsSame(Admit(s), HubGetRest(s, g));
    } else {
      HeadsSame(s, HubGetRest(s, g));
    }
  }

  lemma HeadsTurn<T>(s: State<T>)
    requires HeadsHanded(s) && Enabled(s, HubTurn)
    ensures HeadsHanded(Apply(s, HubTurn))
  {
    var s1 := Apply(s, HubTurn);
    if s.hub.Putting? {
      HeadsHubPut(s, s.hub.item);
    } else if s.hub.Getting? {
      HeadsHubGet(s, s.hub.getter);
    } else if !s.hub.AtMid? && s.putters != [] && Room(s) {
      HeadsAdmit(s);
      HeadsSame(Admit(s), s1);
    } else if s.getters != [] && s.items != [] {
      HeadsWake(s);
      HeadsSame(Wake(s), s1);
    } else {
      HeadsSame(s, s1);
    }
  }

  lemma HeadsStep<T>(s: State<T>, e: Event<T>)
    requires HeadsHanded(s) && Enabled(s, e)
    ensures HeadsHanded(Apply(s, e))
  {
    match e
    case Put(v, block) => HeadsPut(s, v, block);
    case Get(peek, block) => HeadsGet(s, peek, block);
    case HubPut(v) =>
      if Room(s) {
        HeadsPut(s, v, false);
      } else {
        var s1 := CallPut(s, v).(hub := Putting(Item(s.next, v)));
        HeadsSame(s, s1);
        HeadsHubPut(s1, Item(s.next, v));
      }
    case HubGet(peek) =>
      if s.items != [] {
        HeadsGet(s, peek, false);
      } else {
        var s1 := CallGet(s, peek).(hub := Getting(Getter(s.next, peek)));
        HeadsSame(s, s1);
        HeadsHubGet(s1, Getter(s.next, peek));
      }
    case HubTurn => HeadsTurn(s);
    case _ => HeadsSame(s, Apply(s, e));
  }

  /** In every run, whoever is served, a peek included, is handed the oldest item that was not taken before. */
  lemma {:induction false} HeadsAlways<T>(s: State<T>, events: seq<Event<T>>)
    requires HeadsHanded(s) && Allowed(s, events)
    ensures HeadsHanded(Run(s, events))
    decreases |events|
  {
    if events != [] {
      HeadsStep(s, events[0]);
      HeadsAlways(Apply(s, events[0]), events[1..]);
    }
  }

  // ---- Who is refused ----

  /** Why a put is refused or dropped in this step: it would not wait and there is no room, it is dropped, or it is the hub's and the queue is full
      with no getter to make room. */
  predicate PutRefusable<T>(s: State<T>, e: Event<T>, i: Item<T>) {
    || (e.Put? && !e.block && !Room(s) && i.ticket == s.next)
    || (e.DropPutter? && e.index < |s.putters| && i.ticket == s.putters[e.index].ticket)
    || (e.HubPut? && !Room(s) && (s.getters == [] || s.items == []) && i.ticket == s.next)
    || (e.HubTurn? && s.hub.Putting? && |s.items| >= s.maxsize && (s.getters == [] || s.items == []) && i.ticket == s.hub.item.ticket)
  }

  predicate GetRefusable<T>(s: State<T>, e: Event<T>, g: Getter) {
    || (e.Get? && !e.block && s.items == [] && g.ticket == s.next)
    || (e.DropGetter? && e.index < |s.getters| && g == s.getters[e.index])
    || (e.HubGet? && s.items == [] && s.putters == [] && g.ticket == s.next)
    || (e.HubTurn? && s.hub.Getting? && s.items == [] && s.putters == [] && g == s.hub.getter)
  }

  ghost predicate PutNeeds<T>(s: State<T>, e: Event<T>, s1: State<T>) {
    && (|s1.putters| > |s.putters| ==> e.Put? && e.block && !Room(s))
    && (s1.gonePuts == s.gonePuts ||
        (|s1.gonePuts| == |s.gonePuts| + 1 && s.gonePuts < s1.gonePuts && PutRefusable(s, e, s1.gonePuts[|s.gonePuts|])))
  }

  ghost predicate GetNeeds<T>(s: State<T>, e: Event<T>, s1: State<T>) {
    && (|s1.getters| > |s.getters| ==> e.Get? && e.block && s.items == [])
    && (s1.goneGets == s.goneGets ||
        (|s1.goneGets| == |s.goneGets| + 1 && s.goneGets < s1.goneGets && GetRefusable(s, e, s1.goneGets[|s.goneGets|])))
  }

  lemma CallNeeds<T>(s: State<T>, e: Event<T>)
    requires Enabled(s, e) && (e.Put? || e.Get? || e.DropGetter? || e.DropPutter?)
    ensures PutNeeds(s, e, Apply(s, e)) && GetNeeds(s, e, Apply(s, e))
  {
  }

  lemma HubPutNeeds<T>(s: State<T>, e: Event<T>)
    requires Enabled(s, e) && (e.HubPut? || e.HubGet? || e.HubTurn?)
    ensures PutNeeds(s, e, Apply(s, e))
  {
  }

  lemma HubGetNeeds<T>(s: State<T>, e: Event<T>)
    requires Enabled(s, e) && (e.HubPut? || e.HubGet? || e.HubTurn?)
    ensures GetNeeds(s, e, Apply(s, e))
  {
  }

  /** Nobody waits, and nobody is refused, without need: a put joins those that wait only when it finds no room, a get only when it finds no item, and
      Full and Empty are raised only for a call that can neither be served nor wait, or that is dropped. */
  lemma OnlyWithNeed<T>(s: State<T>, e: Event<T>)
    requires Enabled(s, e)
    ensures PutNeeds(s, e, Apply(s, e)) && GetNeeds(s, e, Apply(s, e))
  {
    if e.HubPut? || e.HubGet? || e.HubTurn? {
      HubPutNeeds(s, e);
      HubGetNeeds(s, e);
    } else {
      CallNeeds(s, e);
    }
  }
}
