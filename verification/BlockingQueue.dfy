/** The cooperative blocking queue: a deque, waiting getters and putters, and an unlock pass that the hub runs later. */
module BlockingQueue {

  /** One put: its ticket tells equal items apart. */
  datatype Item<T> = Item(ticket: nat, value: T)

  /** A caller blocked in get (or peek). */
  datatype Getter = Getter(ticket: nat, peek: bool)

  /** What the hub is in the middle of, between two switches into other greenlets. AtTop and AtMid are the two places of the loop in _unlock
      where control can come back from a switch. */
  datatype Hub<T> = Free | AtTop | AtMid | Putting(item: Item<T>) | Getting(getter: Getter)

  /** One item handed to one caller of get or peek. */
  datatype Handed<T> = Handed(ticket: nat, item: Item<T>, peek: bool)

  /** `entered` is what the deque was given so far and `served` what was handed out, both oldest first; `puts` and `gets` are the calls made so far,
      `gonePuts` and `goneGets` those that were refused, or dropped while they waited. */
  datatype State<T> = State(
    maxsize: int,
    items: seq<Item<T>>,
    getters: seq<Getter>,
    putters: seq<Item<T>>,
    scheduled: bool,
    hub: Hub<T>,
    next: nat,
    entered: seq<Item<T>>,
    served: seq<Handed<T>>,
    puts: seq<Item<T>>,
    gets: seq<Getter>,
    gonePuts: seq<Item<T>>,
    goneGets: seq<Getter>)

  datatype Event<T> =
    | Put(value: T, block: bool)
    | Get(peek: bool, block: bool)
    | DropGetter(index: nat)
    | DropPutter(index: nat)
    | HubPut(value: T)
    | HubGet(peek: bool)
    | HubTurn

  predicate Room<T>(s: State<T>) { s.maxsize == -1 || |s.items| < s.maxsize }

  function Enter<T>(s: State<T>, i: Item<T>): State<T> {
    s.(items := s.items + [i], entered := s.entered + [i])
  }

  function Schedule<T>(s: State<T>): State<T> { s.(scheduled := true) }

  /** _get or _peek, for the caller with ticket t: the head of the deque is returned, and removed unless it is a peek. */
  function Serve<T>(s: State<T>, t: nat, peek: bool): State<T>
    requires s.items != []
  {
    s.(served := s.served + [Handed(t, s.items[0], peek)], items := if peek then s.items else s.items[1..])
  }

  /** The getter at the front is woken and runs its method at once. */
  function Wake<T>(s: State<T>): State<T>
    requires s.getters != [] && s.items != []
  {
    Serve(s.(getters := s.getters[1..]), s.getters[0].ticket, s.getters[0].peek)
  }

  /** The item of the putter at the front enters the deque and its putter is woken. */
  function Admit<T>(s: State<T>): State<T>
    requires s.putters != []
  {
    Enter(s.(putters := s.putters[1..]), s.putters[0])
  }

  /** A call is made, under a new ticket. */
  function CallPut<T>(s: State<T>, value: T): State<T> { s.(next := s.next + 1, puts := s.puts + [Item(s.next, value)]) }

  function CallGet<T>(s: State<T>, peek: bool): State<T> { s.(next := s.next + 1, gets := s.gets + [Getter(s.next, peek)]) }

  /** Full or Empty is raised. */
  function RefusePut<T>(s: State<T>, i: Item<T>): State<T> { s.(gonePuts := s.gonePuts + [i]) }

  function RefuseGet<T>(s: State<T>, g: Getter): State<T> { s.(goneGets := s.goneGets + [g]) }

  /** put, called by a greenlet other than the hub. */
  function PutStep<T>(s: State<T>, value: T, block: bool): State<T> {
    var i := Item(s.next, value);
    var s1 := CallPut(s, value);
    if Room(s) then (var s2 := Enter(s1, i); if s.getters != [] then Schedule(s2) else s2)
    else if block then (var s2 := s1.(putters := s.putters + [i]); if s.getters != [] then Schedule(s2) else s2)
    else RefusePut(s1, i)
  }

  /** get and peek, called by a greenlet other than the hub. */
  function GetStep<T>(s: State<T>, peek: bool, block: bool): State<T> {
    var s1 := CallGet(s, peek);
    if s.items != [] then Serve(if s.putters != [] && !peek then Schedule(s1) else s1, s.next, peek)
    else if block then
      (var s2 := s1.(getters := s.getters + [Getter(s.next, peek)]); if s.putters != [] then Schedule(s2) else s2)
    else RefuseGet(s1, Getter(s.next, peek))
  }

  /** The rest of the loop of a put made by the hub, from the point where a woken getter has switched back. */
  function HubPutRest<T>(s: State<T>, i: Item<T>): State<T> {
    if s.getters != [] && s.items != [] && |s.items| >= s.maxsize then Wake(s).(hub := Putting(i))
    else if |s.items| < s.maxsize then Enter(s, i).(hub := Free)
    else RefusePut(s, i).(hub := Free)
  }

  /** put, called by the hub itself. */
  function HubPutStep<T>(s: State<T>, value: T): State<T> {
    var i := Item(s.next, value);
    if Room(s) then PutStep(s, value, false) else HubPutRest(CallPut(s, value).(hub := Putting(i)), i)
  }

  /** The loop of a get made by the hub, under the ticket of g: putters are let in until there is something to return. */
  function HubGetRest<T>(s: State<T>, g: Getter): State<T> {
    if s.items != [] then Serve(s, g.ticket, g.peek).(hub := Free)
    else if s.putters != [] then Admit(s).(hub := Getting(g))
    else RefuseGet(s, g).(hub := Free)
  }

  function HubGetStep<T>(s: State<T>, peek: bool): State<T> {
    var g := Getter(s.next, peek);
    if s.items != [] then GetStep(s, peek, false) else HubGetRest(CallGet(s, peek).(hub := Getting(g)), g)
  }

  /** One iteration of _unlock up to its first switch; the pass ends when neither a putter nor a getter can move. */
  function UnlockTop<T>(s: State<T>): State<T> {
    if s.putters != [] && Room(s) then Admit(s).(hub := AtMid)
    else if s.getters != [] && s.items != [] then Wake(s).(hub := AtTop)
    else s.(hub := Free, scheduled := false)
  }

  /** The second half of an iteration whose first half let a putter in. */
  function UnlockMid<T>(s: State<T>): State<T> {
    if s.getters != [] && s.items != [] then Wake(s).(hub := AtTop) else s.(hub := AtTop)
  }

  predicate Enabled<T>(s: State<T>, e: Event<T>) {
    match e
    case Put(_, _) => true
    case Get(_, _) => true
    case DropGetter(i) => i < |s.getters|
    case DropPutter(i) => i < |s.putters|
    case HubPut(_) => s.hub.Free?
    case HubGet(_) => s.hub.Free?
    case HubTurn => !s.hub.Free? || s.scheduled
  }

  /** The events of all greenlets in any order; a waiter may be dropped by its timeout, or because it is killed, at any time. */
  function Apply<T>(s: State<T>, e: Event<T>): State<T>
    requires Enabled(s, e)
  {
    match e
    case Put(v, block) => PutStep(s, v, block)
    case Get(peek, block) => GetStep(s, peek, block)
    case DropGetter(i) => RefuseGet(s.(getters := s.getters[..i] + s.getters[i + 1..]), s.getters[i])
    case DropPutter(i) => RefusePut(s.(putters := s.putters[..i] + s.putters[i + 1..]), s.putters[i])
    case HubPut(v) => HubPutStep(s, v)
    case HubGet(peek) => HubGetStep(s, peek)
    case HubTurn =>
      match s.hub
      case Putting(i) => HubPutRest(s, i)
      case Getting(g) => HubGetRest(s, g)
      case AtMid => UnlockMid(s)
      case _ => UnlockTop(s)
  }

  /** A new queue; every maxsize up to 0 means no bound. */
  function Init<T>(maxsize: int): State<T> {
    State(if maxsize <= 0 then -1 else maxsize, [], [], [], false, Free, 0, [], [], [], [], [], [])
  }

  predicate Allowed<T>(s: State<T>, events: seq<Event<T>>)
    decreases |events|
  {
    events == [] || (Enabled(s, events[0]) && Allowed(Apply(s, events[0]), events[1..]))
  }

  function Run<T>(s: State<T>, events: seq<Event<T>>): State<T>
    requires Allowed(s, events)
    decreases |events|
  {
    if events == [] then s else Run(Apply(s, events[0]), events[1..])
  }

  // ---- No lost wakeup ----

  /** Somebody waits who could go on. */
  predicate CanMove<T>(s: State<T>) {
    (s.putters != [] && Room(s)) || (s.getters != [] && s.items != [])
  }

  ghost predicate Awake<T>(s: State<T>) {
    && (s.maxsize == -1 || 1 <= s.maxsize)
    && (CanMove(s) ==> s.scheduled)
    && (!s.hub.Free? ==> s.scheduled)
  }

  lemma AwakeStep<T>(s: State<T>, e: Event<T>)
    requires Awake(s) && Enabled(s, e)
    ensures Awake(Apply(s, e))
  {
  }

  lemma {:induction false} AwakeAlways<T>(s: State<T>, events: seq<Event<T>>)
    requires Awake(s) && Allowed(s, events)
    ensures Awake(Run(s, events))
    decreases |events|
  {
    if events != [] {
      AwakeStep(s, events[0]);
      AwakeAlways(Apply(s, events[0]), events[1..]);
    }
  }

  // ---- Nothing is lost, doubled or reordered ----

  /** How often an item, and a call of get, occur. */
  ghost function Count<T>(items: seq<Item<T>>, x: Item<T>): nat {
    if items == [] then 0 else (if items[0] == x then 1 else 0) + Count(items[1..], x)
  }

  function Waiting(getters: seq<Getter>, g: Getter): nat {
    if getters == [] then 0 else (if getters[0] == g then 1 else 0) + Waiting(getters[1..], g)
  }

  predicate HandedTo<T>(h: Handed<T>, g: Getter) { h.ticket == g.ticket && h.peek == g.peek }

  function Served<T>(handed: seq<Handed<T>>, g: Getter): nat {
    if handed == [] then 0 else (if HandedTo(handed[|handed| - 1], g) then 1 else 0) + Served(handed[..|handed| - 1], g)
  }

  /** The items that were handed to a get, oldest first; a peek takes nothing. */
  function Taken<T>(handed: seq<Handed<T>>): seq<Item<T>> {
    if handed == [] then []
    else
      var last := handed[|handed| - 1];
      if last.peek then Taken(handed[..|handed| - 1]) else Taken(handed[..|handed| - 1]) + [last.item]
  }

  /** The item that a put of the hub holds while its loop runs. */
  function Pocket<T>(s: State<T>): seq<Item<T>> {
    if s.hub.Putting? then [s.hub.item] else []
  }

  /** The places where a put can be: in the deque or through it, waiting, in the hands of the hub, refused or dropped. */
  ghost function PutPlaces<T>(s: State<T>, x: Item<T>): nat {
    Count(s.entered, x) + Count(s.putters, x) + Count(Pocket(s), x) + Count(s.gonePuts, x)
  }

  /** The get of the hub while its loop runs. */
  function Caller<T>(s: State<T>): seq<Getter> {
    if s.hub.Getting? then [s.hub.getter] else []
  }

  /** The places where a get can be: served, waiting, the hub's own, refused or dropped. */
  function GetPlaces<T>(s: State<T>, g: Getter): nat {
    Served(s.served, g) + Waiting(s.getters, g) + Waiting(Caller(s), g) + Waiting(s.goneGets, g)
  }

  /** What went in is what came out, in the same order, followed by what is still there. */
  ghost predicate Fifo<T>(s: State<T>) {
    s.entered == Taken(s.served) + s.items
  }

  /** A bounded queue that is within its bound stays there. */
  predicate Bounded<T>(s: State<T>) { s.maxsize == -1 || |s.items| <= s.maxsize }

  lemma {:induction false} CountConcat<T>(a: seq<Item<T>>, b: seq<Item<T>>, x: Item<T>)
    ensures Count(a + b, x) == Count(a, x) + Count(b, x)
  {
    if a == [] {
      assert a + b == b;
    } else {
      assert (a + b)[1..] == a[1..] + b;
      CountConcat(a[1..], b, x);
    }
  }

  lemma {:induction false} WaitingConcat(a: seq<Getter>, b: seq<Getter>, g: Getter)
    ensures Waiting(a + b, g) == Waiting(a, g) + Waiting(b, g)
  {
    if a == [] {
      assert a + b == b;
    } else {
      assert (a + b)[1..] == a[1..] + b;
      WaitingConcat(a[1..], b, g);
    }
  }

  lemma CountSnoc<T>(a: seq<Item<T>>, i: Item<T>, x: Item<T>)
    ensures Count(a + [i], x) == Count(a, x) + (if i == x then 1 else 0)
  {
    CountConcat(a, [i], x);
    assert [i][1..] == [];
  }

  lemma WaitingSnoc(a: seq<Getter>, h: Getter, g: Getter)
    ensures Waiting(a + [h], g) == Waiting(a, g) + (if h == g then 1 else 0)
  {
    WaitingConcat(a, [h], g);
    assert [h][1..] == [];
  }

  lemma EnterFifo<T>(s: State<T>, i: Item<T>)
    requires Fifo(s)
    ensures Fifo(Enter(s, i))
  {
    assert Taken(s.served) + s.items + [i] == Taken(s.served) + (s.items + [i]);
  }

  lemma ServeFifo<T>(s: State<T>, ticket: nat, peek: bool)
    requires Fifo(s) && s.items != []
    ensures Fifo(Serve(s, ticket, peek))
  {
    var s1 := Serve(s, ticket, peek);
    assert s1.served[..|s1.served| - 1] == s.served;
    if !peek {
      assert Taken(s1.served) == Taken(s.served) + [s.items[0]];
      assert Taken(s.served) + s.items == Taken(s.served) + [s.items[0]] + s.items[1..];
    }
  }

  lemma ServeCounts<T>(s: State<T>, ticket: nat, peek: bool, g: Getter)
    requires s.items != []
    ensures Served(Serve(s, ticket, peek).served, g) == Served(s.served, g) + (if Getter(ticket, peek) == g then 1 else 0)
  {
    var s1 := Serve(s, ticket, peek);
    assert s1.served[..|s1.served| - 1] == s.served;
  }

  lemma AdmitCounts<T>(s: State<T>, x: Item<T>)
    requires s.putters != []
    ensures PutPlaces(Admit(s), x) == PutPlaces(s, x)
  {
    CountSnoc(s.entered, s.putters[0], x);
  }

  lemma WakeCounts<T>(s: State<T>, g: Getter)
    requires s.getters != [] && s.items != []
    ensures GetPlaces(Wake(s), g) == GetPlaces(s, g)
  {
    ServeCounts(s.(getters := s.getters[1..]), s.getters[0].ticket, s.getters[0].peek, g);
  }

  /** What every step keeps, seen from one put and one get, while a call of theirs has been made and has found no place yet. */
  ghost predicate Owed<T>(s: State<T>, x: Item<T>, g: Getter, putOwed: nat, getOwed: nat) {
    && Fifo(s)
    && Bounded(s)
    && PutPlaces(s, x) + putOwed == Count(s.puts, x)
    && GetPlaces(s, g) + getOwed == Waiting(s.gets, g)
  }

  /** Every call is in exactly as many places as it was made. */
  ghost predicate Sound<T>(s: State<T>, x: Item<T>, g: Getter) { Owed(s, x, g, 0, 0) }

  lemma AdmitSound<T>(s: State<T>, x: Item<T>, g: Getter)
    requires s.putters != [] && Room(s) && Sound(s, x, g)
    ensures Sound(Admit(s), x, g)
  {
    AdmitCounts(s, x);
    EnterFifo(s.(putters := s.putters[1..]), s.putters[0]);
  }

  lemma WakeSound<T>(s: State<T>, x: Item<T>, g: Getter)
    requires s.getters != [] && s.items != [] && Sound(s, x, g)
    ensures Sound(Wake(s), x, g)
  {
    WakeCounts(s, g);
    ServeFifo(s.(getters := s.getters[1..]), s.getters[0].ticket, s.getters[0].peek);
  }

  lemma CallPutOwes<T>(s: State<T>, value: T, x: Item<T>, g: Getter)
    requires Sound(s, x, g)
    ensures Owed(CallPut(s, value), x, g, if Item(s.next, value) == x then 1 else 0, 0)
  {
    CountSnoc(s.puts, Item(s.next, value), x);
  }

  lemma EnterPays<T>(s: State<T>, i: Item<T>, x: Item<T>, g: Getter)
    requires Room(s) && Owed(s, x, g, if i == x then 1 else 0, 0)
    ensures Sound(Enter(s, i), x, g)
  {
    CountSnoc(s.entered, i, x);
    EnterFifo(s, i);
  }

  lemma WaitingPutPays<T>(s: State<T>, i: Item<T>, x: Item<T>, g: Getter)
    requires Owed(s, x, g, if i == x then 1 else 0, 0)
    ensures Sound(s.(putters := s.putters + [i]), x, g)
  {
    CountSnoc(s.putters, i, x);
  }

  lemma RefusedPutPays<T>(s: State<T>, i: Item<T>, x: Item<T>, g: Getter)
    requires Owed(s, x, g, if i == x then 1 else 0, 0)
    ensures Sound(RefusePut(s, i), x, g)
  {
    CountSnoc(s.gonePuts, i, x);
  }

  lemma CallGetOwes<T>(s: State<T>, peek: bool, x: Item<T>, g: Getter)
    requires Sound(s, x, g)
    ensures Owed(CallGet(s, peek), x, g, 0, if Getter(s.next, peek) == g then 1 else 0)
  {
    WaitingSnoc(s.gets, Getter(s.next, peek), g);
  }

  lemma ServePays<T>(s: State<T>, ticket: nat, peek: bool, x: Item<T>, g: Getter)
    requires s.items != [] && Owed(s, x, g, 0, if Getter(ticket, peek) == g then 1 else 0)
    ensures Sound(Serve(s, ticket, peek), x, g)
  {
    ServeCounts(s, ticket, peek, g);
    ServeFifo(s, ticket, peek);
  }

  lemma WaitingGetPays<T>(s: State<T>, h: Getter, x: Item<T>, g: Getter)
    requires Owed(s, x, g, 0, if h == g then 1 else 0)
    ensures Sound(s.(getters := s.getters + [h]), x, g)
  {
    WaitingSnoc(s.getters, h, g);
  }

  lemma RefusedGetPays<T>(s: State<T>, h: Getter, x: Item<T>, g: Getter)
    requires Owed(s, x, g, 0, if h == g then 1 else 0)
    ensures Sound(RefuseGet(s, h), x, g)
  {
    WaitingSnoc(s.goneGets, h, g);
  }

  lemma ScheduleOwes<T>(s: State<T>, x: Item<T>, g: Getter, putOwed: nat, getOwed: nat)
    requires Owed(s, x, g, putOwed, getOwed)
    ensures Owed(Schedule(s), x, g, putOwed, getOwed)
  {
  }

  predicate HoldsNothing<T>(hub: Hub<T>) { !hub.Putting? && !hub.Getting? }

  lemma MoveHub<T>(s: State<T>, hub: Hub<T>, scheduled: bool, x: Item<T>, g: Getter)
    requires HoldsNothing(s.hub) && HoldsNothing(hub) && Sound(s, x, g)
    ensures Sound(s.(hub := hub), x, g) && Sound(s.(hub := hub, scheduled := scheduled), x, g)
  {
  }

  lemma PutSound<T>(s: State<T>, value: T, block: bool, x: Item<T>, g: Getter)
    requires Sound(s, x, g)
    ensures Sound(PutStep(s, value, block), x, g)
  {
    var i, s1 := Item(s.next, value), CallPut(s, value);
    CallPutOwes(s, value, x, g);
    if Room(s) {
      EnterPays(s1, i, x, g);
      ScheduleOwes(Enter(s1, i), x, g, 0, 0);
    } else if block {
      WaitingPutPays(s1, i, x, g);
      ScheduleOwes(s1.(putters := s.putters + [i]), x, g, 0, 0);
    } else {
      RefusedPutPays(s1, i, x, g);
    }
  }

  lemma GetSound<T>(s: State<T>, peek: bool, block: bool, x: Item<T>, g: Getter)
    requires Sound(s, x, g)
    ensures Sound(GetStep(s, peek, block), x, g)
  {
    var h, s1 := Getter(s.next, peek), CallGet(s, peek);
    CallGetOwes(s, peek, x, g);
    if s.items != [] {
      var s2 := if s.putters != [] && !peek then Schedule(s1) else s1;
      ScheduleOwes(s1, x, g, 0, if h == g then 1 else 0);
      ServePays(s2, s.next, peek, x, g);
    } else if block {
      WaitingGetPays(s1, h, x, g);
      ScheduleOwes(s1.(getters := s.getters + [h]), x, g, 0, 0);
    } else {
      RefusedGetPays(s1, h, x, g);
    }
  }

  lemma DropGetterSound<T>(s: State<T>, k: nat, x: Item<T>, g: Getter)
    requires k < |s.getters| && Sound(s, x, g)
    ensures Sound(Apply(s, DropGetter(k)), x, g)
  {
    assert s.getters == s.getters[..k] + [s.getters[k]] + s.getters[k + 1..];
    WaitingSnoc(s.getters[..k], s.getters[k], g);
    WaitingConcat(s.getters[..k] + [s.getters[k]], s.getters[k + 1..], g);
    WaitingConcat(s.getters[..k], s.getters[k + 1..], g);
    WaitingSnoc(s.goneGets, s.getters[k], g);
  }

  lemma DropPutterSound<T>(s: State<T>, k: nat, x: Item<T>, g: Getter)
    requires k < |s.putters| && Sound(s, x, g)
    ensures Sound(Apply(s, DropPutter(k)), x, g)
  {
    assert s.putters == s.putters[..k] + [s.putters[k]] + s.putters[k + 1..];
    CountSnoc(s.putters[..k], s.putters[k], x);
    CountConcat(s.putters[..k] + [s.putters[k]], s.putters[k + 1..], x);
    CountConcat(s.putters[..k], s.putters[k + 1..], x);
    CountSnoc(s.gonePuts, s.putters[k], x);
  }

  /** What the hub holds is owed while its loop runs. */
  lemma PocketOwes<T>(s: State<T>, i: Item<T>, x: Item<T>, g: Getter)
    ensures Sound(s.(hub := Putting(i)), x, g) <==> Owed(s.(hub := Free), x, g, if i == x then 1 else 0, 0)
  {
    assert [i][1..] == [];
  }

  lemma CallerOwes<T>(s: State<T>, h: Getter, x: Item<T>, g: Getter)
    ensures Sound(s.(hub := Getting(h)), x, g) <==> Owed(s.(hub := Free), x, g, 0, if h == g then 1 else 0)
  {
    assert [h][1..] == [];
  }

  lemma HubPutSound<T>(s: State<T>, i: Item<T>, x: Item<T>, g: Getter)
    requires s.hub == Putting(i) && Sound(s, x, g)
    ensures Sound(HubPutRest(s, i), x, g)
  {
    var s1 := s.(hub := Free);
    PocketOwes(s, i, x, g);
    if s.getters != [] && s.items != [] && |s.items| >= s.maxsize {
      WakeSound(s, x, g);
    } else if |s.items| < s.maxsize {
      EnterPays(s1, i, x, g);
    } else {
      RefusedPutPays(s1, i, x, g);
    }
  }

  lemma HubPutStepSound<T>(s: State<T>, v: T, x: Item<T>, g: Getter)
    requires s.hub.Free? && Sound(s, x, g)
    ensures Sound(HubPutStep(s, v), x, g)
  {
    if Room(s) {
      PutSound(s, v, false, x, g);
    } else {
      var i, s1 := Item(s.next, v), CallPut(s, v);
      CallPutOwes(s, v, x, g);
      PocketOwes(s1, i, x, g);
      HubPutSound(s1.(hub := Putting(i)), i, x, g);
    }
  }

  lemma HubGetSound<T>(s: State<T>, h: Getter, x: Item<T>, g: Getter)
    requires s.hub == Getting(h) && (s.maxsize == -1 || 1 <= s.maxsize)
    requires Sound(s, x, g)
    ensures Sound(HubGetRest(s, h), x, g)
  {
    var s1 := s.(hub := Free);
    CallerOwes(s, h, x, g);
    if s.items != [] {
      ServePays(s1, h.ticket, h.peek, x, g);
    } else if s.putters != [] {
      AdmitSound(s, x, g);
    } else {
      RefusedGetPays(s1, h, x, g);
    }
  }

  lemma TopSound<T>(s: State<T>, x: Item<T>, g: Getter)
    requires HoldsNothing(s.hub) && Sound(s, x, g)
    ensures Sound(UnlockTop(s), x, g)
  {
    if s.putters != [] && Room(s) {
      AdmitSound(s, x, g);
      MoveHub(Admit(s), AtMid, s.scheduled, x, g);
    } else if s.getters != [] && s.items != [] {
      WakeSound(s, x, g);
      MoveHub(Wake(s), AtTop, s.scheduled, x, g);
    } else {
      MoveHub(s, Free, false, x, g);
    }
  }

  lemma MidSound<T>(s: State<T>, x: Item<T>, g: Getter)
    requires HoldsNothing(s.hub) && Sound(s, x, g)
    ensures Sound(UnlockMid(s), x, g)
  {
    if s.getters != [] && s.items != [] {
      WakeSound(s, x, g);
      MoveHub(Wake(s), AtTop, s.scheduled, x, g);
    } else {
      MoveHub(s, AtTop, s.scheduled, x, g);
    }
  }

  lemma TurnSound<T>(s: State<T>, x: Item<T>, g: Getter)
    requires Awake(s) && Sound(s, x, g) && Enabled(s, HubTurn)
    ensures Sound(Apply(s, HubTurn), x, g)
  {
    match s.hub
    case Putting(i) => HubPutSound(s, i, x, g);
    case Getting(h) => HubGetSound(s, h, x, g);
    case AtMid => MidSound(s, x, g);
    case _ => TopSound(s, x, g);
  }

  lemma HubGetStepSound<T>(s: State<T>, peek: bool, x: Item<T>, g: Getter)
    requires s.hub.Free? && Awake(s) && Sound(s, x, g)
    ensures Sound(HubGetStep(s, peek), x, g)
  {
    if s.items != [] {
      GetSound(s, peek, false, x, g);
    } else {
      var h, s1 := Getter(s.next, peek), CallGet(s, peek);
      CallGetOwes(s, peek, x, g);
      CallerOwes(s1, h, x, g);
      HubGetSound(s1.(hub := Getting(h)), h, x, g);
    }
  }

  lemma SoundStep<T>(s: State<T>, e: Event<T>, x: Item<T>, g: Getter)
    requires Awake(s) && Sound(s, x, g) && Enabled(s, e)
    ensures Sound(Apply(s, e), x, g)
  {
    match e
    case Put(v, block) => PutSound(s, v, block, x, g);
    case Get(peek, block) => GetSound(s, peek, block, x, g);
    case DropGetter(k) => DropGetterSound(s, k, x, g);
    case DropPutter(k) => DropPutterSound(s, k, x, g);
    case HubPut(v) => HubPutStepSound(s, v, x, g);
    case HubGet(peek) => HubGetStepSound(s, peek, x, g);
    case HubTurn => TurnSound(s, x, g);
  }

  lemma {:induction false} SoundAlways<T>(s: State<T>, events: seq<Event<T>>, x: Item<T>, g: Getter)
    requires Awake(s) && Sound(s, x, g) && Allowed(s, events)
    ensures Sound(Run(s, events), x, g)
    decreases |events|
  {
    if events != [] {
      AwakeStep(s, events[0]);
      SoundStep(s, events[0], x, g);
      SoundAlways(Apply(s, events[0]), events[1..], x, g);
    }
  }

  // ---- Calls have tickets of their own ----

  predicate Increasing<T>(items: seq<Item<T>>, bound: nat) {
    && (forall i :: 0 <= i < |items| ==> items[i].ticket < bound)
    && (forall i, j :: 0 <= i < j < |items| ==> items[i].ticket < items[j].ticket)
  }

  predicate Rising(getters: seq<Getter>, bound: nat) {
    && (forall i :: 0 <= i < |getters| ==> getters[i].ticket < bound)
    && (forall i, j :: 0 <= i < j < |getters| ==> getters[i].ticket < getters[j].ticket)
  }

  predicate OwnTickets<T>(s: State<T>) { Increasing(s.puts, s.next) && Rising(s.gets, s.next) }

  /** A step records at most one call, under the next ticket. */
  ghost predicate Calls<T>(s: State<T>, s1: State<T>) {
    || (s1.puts == s.puts && s1.gets == s.gets && s1.next == s.next)
    || (|s1.puts| == |s.puts| + 1 && s.puts <= s1.puts && s1.puts[|s.puts|].ticket == s.next && s1.gets == s.gets && s1.next == s.next + 1)
    || (|s1.gets| == |s.gets| + 1 && s.gets <= s1.gets && s1.gets[|s.gets|].ticket == s.next && s1.puts == s.puts && s1.next == s.next + 1)
  }

  lemma PutCalls<T>(s: State<T>, value: T, block: bool)
    ensures Calls(s, PutStep(s, value, block)) && Calls(s, HubPutStep(s, value))
  {
  }

  lemma GetCalls<T>(s: State<T>, peek: bool, block: bool)
    ensures Calls(s, GetStep(s, peek, block)) && Calls(s, HubGetStep(s, peek))
  {
  }

  lemma StepCalls<T>(s: State<T>, e: Event<T>)
    requires Enabled(s, e)
    ensures Calls(s, Apply(s, e))
  {
    match e
    case Put(v, block) => PutCalls(s, v, block);
    case HubPut(v) => PutCalls(s, v, false);
    case Get(peek, block) => GetCalls(s, peek, block);
    case HubGet(peek) => GetCalls(s, peek, false);
    case _ =>
  }

  lemma OwnTicketsStep<T>(s: State<T>, s1: State<T>)
    requires OwnTickets(s) && Calls(s, s1)
    ensures OwnTickets(s1)
  {
  }

  lemma {:induction false} OwnTicketsAlways<T>(s: State<T>, events: seq<Event<T>>)
    requires OwnTickets(s) && Allowed(s, events)
    ensures OwnTickets(Run(s, events))
    decreases |events|
  {
    if events != [] {
      StepCalls(s, events[0]);
      OwnTicketsStep(s, Apply(s, events[0]));
      OwnTicketsAlways(Apply(s, events[0]), events[1..]);
    }
  }

  lemma {:induction false} CountOnce<T>(items: seq<Item<T>>, bound: nat, x: Item<T>)
    requires Increasing(items, bound)
    ensures Count(items, x) == if x in items then 1 else 0
  {
    if items != [] {
      var tail := items[1..];
      assert forall i :: 0 <= i < |tail| ==> tail[i] == items[i + 1];
      CountOnce(tail, bound, x);
      assert items == [items[0]] + tail;
      assert items[0] !in tail;
    }
  }

  lemma {:induction false} WaitingOnce(getters: seq<Getter>, bound: nat, g: Getter)
    requires Rising(getters, bound)
    ensures Waiting(getters, g) == if g in getters then 1 else 0
  {
    if getters != [] {
      var tail := getters[1..];
      assert forall i :: 0 <= i < |tail| ==> tail[i] == getters[i + 1];
      WaitingOnce(tail, bound, g);
      assert getters == [getters[0]] + tail;
      assert getters[0] !in tail;
    }
  }

  lemma EveryCall<T>(s: State<T>, maxsize: int, events: seq<Event<T>>, x: Item<T>, g: Getter)
    requires Allowed(Init(maxsize), events) && s == Run(Init(maxsize), events)
    ensures Awake(s) && Fifo(s) && Bounded(s)
    ensures PutPlaces(s, x) == if x in s.puts then 1 else 0
    ensures GetPlaces(s, g) == if g in s.gets then 1 else 0
  {
    AwakeAlways(Init(maxsize), events);
    SoundAlways(Init(maxsize), events, x, g);
    OwnTicketsAlways(Init(maxsize), events);
    CountOnce(s.puts, s.next, x);
    WaitingOnce(s.gets, s.next, g);
  }

  lemma EveryState<T>(s: State<T>, maxsize: int, events: seq<Event<T>>, value: T)
    requires Allowed(Init(maxsize), events) && s == Run(Init(maxsize), events)
    ensures CanMove(s) ==> s.scheduled
    ensures s.entered == Taken(s.served) + s.items
    ensures s.maxsize > 0 ==> |s.items| <= s.maxsize
  {
    EveryCall(s, maxsize, events, Item(0, value), Getter(0, false));
  }

  lemma EveryPut<T>(s: State<T>, maxsize: int, events: seq<Event<T>>)
    requires Allowed(Init(maxsize), events) && s == Run(Init(maxsize), events)
    ensures forall x :: PutPlaces(s, x) == if x in s.puts then 1 else 0
  {
    forall x ensures PutPlaces(s, x) == if x in s.puts then 1 else 0 {
      EveryCall(s, maxsize, events, x, Getter(0, false));
    }
  }

  lemma EveryGet<T>(s: State<T>, maxsize: int, events: seq<Event<T>>, value: T)
    requires Allowed(Init(maxsize), events) && s == Run(Init(maxsize), events)
    ensures forall g :: GetPlaces(s, g) == if g in s.gets then 1 else 0
  {
    forall g ensures GetPlaces(s, g) == if g in s.gets then 1 else 0 {
      EveryCall(s, maxsize, events, Item(0, value), g);
    }
  }

  /** The claims for every run of a new queue: a waiter that could go on is never left without a scheduled pass; items are handed out in the order in
      which they entered; and nothing is lost or doubled: every put has entered once, or still waits, or is in the hands of the hub, or was refused
      or dropped, exactly one of these, and every get was served once, or still waits, or was refused or dropped. */
  lemma EveryRun<T(00)>(s: State<T>, maxsize: int, events: seq<Event<T>>)
    requires Allowed(Init(maxsize), events) && s == Run(Init(maxsize), events)
    ensures CanMove(s) ==> s.scheduled
    ensures s.entered == Taken(s.served) + s.items
    ensures s.maxsize > 0 ==> |s.items| <= s.maxsize
    ensures forall x :: PutPlaces(s, x) == if x in s.puts then 1 else 0
    ensures forall g :: GetPlaces(s, g) == if g in s.gets then 1 else 0
  {
    var value: T := *;
    EveryState(s, maxsize, events, value);
    EveryPut(s, maxsize, events);
    EveryGet(s, maxsize, events, value);
  }

  // ---- Order among puts ----

  /** Puts enter in the order in which they were called. */
  predicate InOrder<T>(s: State<T>) { Increasing(s.entered + s.putters, s.next) }

  /** The hub's own put, while it tries, was called before now. */
  predicate Ordered<T>(s: State<T>) { InOrder(s) && (s.hub.Putting? ==> s.hub.item.ticket < s.next) }

  /** A put made now overtakes the ones that wait: it finds room that the pass has not given them yet. */
  predicate Overtakes<T>(s: State<T>) { Room(s) && s.putters != [] }

  /** No older put waits, and no younger one has entered. */
  predicate InPlace<T>(s: State<T>, i: Item<T>) {
    && (s.putters != [] ==> i.ticket < s.putters[0].ticket)
    && (s.entered != [] ==> s.entered[|s.entered| - 1].ticket < i.ticket)
  }

  lemma IncreasingAppend<T>(l: seq<Item<T>>, i: Item<T>)
    requires Increasing(l, i.ticket)
    ensures Increasing(l + [i], i.ticket + 1)
  {
  }

  lemma IncreasingWithout<T>(l: seq<Item<T>>, cut: nat, bound: nat)
    requires Increasing(l, bound) && cut < |l|
    ensures Increasing(l[..cut] + l[cut + 1..], bound)
  {
    var l1 := l[..cut] + l[cut + 1..];
    assert forall i :: 0 <= i < |l1| ==> l1[i] == l[if i < cut then i else i + 1];
  }

  lemma IncreasingInsert<T>(a: seq<Item<T>>, i: Item<T>, b: seq<Item<T>>, bound: nat)
    requires Increasing(a + b, bound) && i.ticket < bound
    ensures Increasing(a + [i] + b, bound) <==>
            (b != [] ==> i.ticket < b[0].ticket) && (a != [] ==> a[|a| - 1].ticket < i.ticket)
  {
    var l, l1 := a + b, a + [i] + b;
    var n := |a|;
    assert l1[n] == i && (a != [] ==> l1[n - 1] == a[n - 1] == l[n - 1]) && (b != [] ==> l1[n + 1] == b[0] == l[n]);
    assert forall j :: 0 <= j < |l1| && j != n ==> l1[j] == l[if j < n then j else j - 1];
  }

  /** An item that enters now keeps the order exactly when it is in its place. */
  lemma EnterInOrder<T>(s: State<T>, i: Item<T>)
    requires InOrder(s) && i.ticket < s.next
    ensures InOrder(Enter(s, i)) <==> InPlace(s, i)
  {
    IncreasingInsert(s.entered, i, s.putters, s.next);
  }

  lemma CallInOrder<T>(s: State<T>, value: T)
    requires InOrder(s)
    ensures InOrder(CallPut(s, value)) && (InPlace(s, Item(s.next, value)) <==> s.putters == [])
    ensures InOrder(CallPut(s, value).(putters := s.putters + [Item(s.next, value)]))
  {
    var i := Item(s.next, value);
    IncreasingAppend(s.entered + s.putters, i);
    assert s.entered + (s.putters + [i]) == s.entered + s.putters + [i];
    if s.putters != [] { assert s.putters[0] == (s.entered + s.putters)[|s.entered|]; }
    if s.entered != [] { assert s.entered[|s.entered| - 1] == (s.entered + s.putters)[|s.entered| - 1]; }
  }

  lemma OvertakenIffRoom<T>(s: State<T>, value: T, block: bool)
    requires InOrder(s)
    ensures InOrder(PutStep(s, value, block)) <==> !Overtakes(s)
  {
    var i := Item(s.next, value);
    CallInOrder(s, value);
    if Room(s) {
      EnterInOrder(CallPut(s, value), i);
      assert InPlace(CallPut(s, value), i) <==> InPlace(s, i);
    }
  }

  lemma AdmitInOrder<T>(s: State<T>)
    requires s.putters != [] && InOrder(s)
    ensures InOrder(Admit(s))
  {
    assert s.entered + [s.putters[0]] + s.putters[1..] == s.entered + s.putters;
  }

  lemma DropInOrder<T>(s: State<T>, k: nat)
    requires k < |s.putters| && InOrder(s)
    ensures InOrder(s.(putters := s.putters[..k] + s.putters[k + 1..]))
  {
    var l := s.entered + s.putters;
    IncreasingWithout(l, |s.entered| + k, s.next);
    assert l[..|s.entered| + k] + l[|s.entered| + k + 1..] == s.entered + (s.putters[..k] + s.putters[k + 1..]);
  }

  lemma GetInOrder<T>(s: State<T>, peek: bool, block: bool)
    requires InOrder(s)
    ensures InOrder(GetStep(s, peek, block)) && InOrder(HubGetStep(s, peek))
    ensures s.hub.Getting? ==> InOrder(HubGetRest(s, s.hub.getter))
  {
    if s.items == [] && s.putters != [] { AdmitInOrder(s); }
  }

  lemma TurnInOrder<T>(s: State<T>)
    requires InOrder(s)
    ensures InOrder(UnlockTop(s)) && InOrder(UnlockMid(s))
  {
    if s.putters != [] { AdmitInOrder(s); }
  }

  /** The hub's put enters with this turn. */
  predicate HubEnters<T>(s: State<T>) {
    s.hub.Putting? && |s.items| < s.maxsize
  }

  /** This step lets no put overtake another: a put finds no room before those that wait, and the hub's put, which holds its item while it wakes
      getters, does not enter after a younger one or before an older one. */
  predicate Polite<T>(s: State<T>, e: Event<T>) {
    && (e.Put? || e.HubPut? ==> !Overtakes(s))
    && (e.HubTurn? && HubEnters(s) ==> InPlace(s, s.hub.item))
  }

  lemma HubPutInOrder<T>(s: State<T>, i: Item<T>)
    requires InOrder(s) && i.ticket < s.next
    ensures InOrder(HubPutRest(s, i)) <==> (|s.items| < s.maxsize ==> InPlace(s, i))
  {
    if |s.items| < s.maxsize { EnterInOrder(s, i); }
  }

  lemma HubPutStepInOrder<T>(s: State<T>, value: T)
    requires InOrder(s)
    ensures InOrder(HubPutStep(s, value)) <==> !Overtakes(s)
  {
    if Room(s) {
      OvertakenIffRoom(s, value, false);
    } else {
      CallInOrder(s, value);
      HubPutInOrder(CallPut(s, value).(hub := Putting(Item(s.next, value))), Item(s.next, value));
    }
  }

  lemma HubTurnInOrder<T>(s: State<T>)
    requires Ordered(s) && Enabled(s, HubTurn)
    ensures InOrder(Apply(s, HubTurn)) <==> Polite(s, HubTurn)
  {
    match s.hub
    case Putting(i) => HubPutInOrder(s, i);
    case Getting(_) => GetInOrder(s, false, false);
    case _ => TurnInOrder(s);
  }

  lemma HubHoldsOlder<T>(s: State<T>, e: Event<T>)
    requires Enabled(s, e) && (s.hub.Putting? ==> s.hub.item.ticket < s.next)
    ensures var s1 := Apply(s, e); s1.hub.Putting? ==> s1.hub.item.ticket < s1.next
  {
  }

  /** One step keeps the order exactly when it is polite. */
  lemma InOrderStep<T>(s: State<T>, e: Event<T>)
    requires Ordered(s) && Enabled(s, e)
    ensures InOrder(Apply(s, e)) <==> Polite(s, e)
    ensures InOrder(Apply(s, e)) ==> Ordered(Apply(s, e))
  {
    HubHoldsOlder(s, e);
    match e
    case Put(v, block) => OvertakenIffRoom(s, v, block);
    case HubPut(v) => HubPutStepInOrder(s, v);
    case DropGetter(_) =>
    case DropPutter(k) => DropInOrder(s, k);
    case Get(peek, block) => GetInOrder(s, peek, block);
    case HubGet(peek) => GetInOrder(s, peek, false);
    case HubTurn => HubTurnInOrder(s);
  }

  predicate PoliteRun<T>(s: State<T>, events: seq<Event<T>>)
    requires Allowed(s, events)
    decreases |events|
  {
    events == [] || (Polite(s, events[0]) && PoliteRun(Apply(s, events[0]), events[1..]))
  }

  /** The order holds in every state of the run. */
  predicate OrderedRun<T>(s: State<T>, events: seq<Event<T>>)
    requires Allowed(s, events)
    decreases |events|
  {
    InOrder(s) && (events == [] || OrderedRun(Apply(s, events[0]), events[1..]))
  }

  /** Puts, of greenlets and of the hub, enter in the order of the calls all through a run exactly when every step of it is polite. */
  lemma {:induction false} InOrderAlways<T>(s: State<T>, events: seq<Event<T>>)
    requires Ordered(s) && Allowed(s, events)
    ensures OrderedRun(s, events) <==> PoliteRun(s, events)
    decreases |events|
  {
    if events != [] {
      var s1 := Apply(s, events[0]);
      InOrderStep(s, events[0]);
      if Polite(s, events[0]) {
        InOrderAlways(s1, events[1..]);
      } else {
        assert !OrderedRun(s1, events[1..]);
      }
    }
  }

  /** The order is lost in a run as short as this one: a greenlet waits, a get makes room, and another put is faster than the pass. */
  lemma OvertakingHappens()
    ensures
      var events := [Put(1, true), Put(2, true), Get(false, true), Put(3, true)];
      var s := Run(Init(1), events);
      && Allowed(Init(1), events)
      && s.entered == [Item(0, 1), Item(3, 3)] && s.putters == [Item(1, 2)] && !InOrder(s)
  {
    var s0: State<int> := Init(1);
    var e := [Put(1, true), Put(2, true), Get(false, true), Put(3, true)];
    var s1 := Apply(s0, e[0]);
    var s2 := Apply(s1, e[1]);
    var s3 := Apply(s2, e[2]);
    var s4 := Apply(s3, e[3]);
    assert e[1..][1..][1..][1..] == [];
    assert Run(s3, e[1..][1..][1..]) == s4;
    assert Run(s2, e[1..][1..]) == s4;
    assert Run(s1, e[1..]) == s4;
    assert (s4.entered + s4.putters)[1].ticket == 3 && (s4.entered + s4.putters)[2].ticket == 1;
  }

  // ---- The pass and the hub's own calls, when the greenlets they wake do no more than what they waited for ----

  /** The loop of _unlock. */
  function Pass<T>(s: State<T>): (r: State<T>)
    requires s.hub.AtTop?
    ensures !CanMove(r) && !r.scheduled && r.hub.Free?
    ensures r.getters != [] ==> r.items == []
    ensures r.putters != [] ==> r.maxsize <= |r.items|
    decreases |s.putters| + |s.getters|
  {
    var s1 := UnlockTop(s);
    if s1.hub.Free? then s1 else Pass(if s1.hub.AtMid? then UnlockMid(s1) else s1)
  }

  function HubPutAll<T>(s: State<T>, i: Item<T>): (r: State<T>)
    requires s.hub.Putting?
    ensures r.hub.Free?
    ensures |s.items| == s.maxsize >= 1 ==> (r.entered == s.entered + [i] <==> exists k :: 0 <= k < |s.getters| && !s.getters[k].peek)
    decreases |s.getters|
  {
    var s1 := HubPutRest(s, i);
    if s1.hub.Free? then s1 else HubPutAll(s1, i)
  }

  lemma {:induction false} HubPutAllFrame<T>(s: State<T>, i: Item<T>)
    requires s.hub.Putting?
    ensures var r := HubPutAll(s, i);
            && r.putters == s.putters && r.next == s.next
            && (r.entered == s.entered || r.entered == s.entered + [i])
    decreases |s.getters|
  {
    var s1 := HubPutRest(s, i);
    if !s1.hub.Free? { HubPutAllFrame(s1, i); }
  }

  /** A put of the hub into a full queue takes the place of what a waiting getter removes; it overtakes exactly when a put waits and some
      waiting getter is not a peek. */
  lemma HubPutKeepsOrder<T>(s: State<T>, value: T)
    requires InOrder(s) && s.hub.Free? && |s.items| == s.maxsize >= 1
    ensures
      var i := Item(s.next, value);
      InOrder(HubPutAll(CallPut(s, value).(hub := Putting(i)), i)) <==>
      s.putters == [] || forall k :: 0 <= k < |s.getters| ==> s.getters[k].peek
  {
    var i := Item(s.next, value);
    var s1 := CallPut(s, value).(hub := Putting(i));
    var r := HubPutAll(s1, i);
    HubPutAllFrame(s1, i);
    CallInOrder(s, value);
    if exists k :: 0 <= k < |s.getters| && !s.getters[k].peek {
      EnterInOrder(s1, i);
      assert r.entered + r.putters == Enter(s1, i).entered + Enter(s1, i).putters;
      assert InPlace(s1, i) <==> InPlace(CallPut(s, value), i);
    } else {
      assert r.entered != s.entered + [i];
    }
  }

  function HubGetAll<T>(s: State<T>, peek: bool): State<T>
    requires s.hub.Free?
  {
    var s1 := HubGetStep(s, peek);
    if s1.hub.Free? then s1 else HubGetRest(s1, s1.hub.getter)
  }

  function Turns<T>(n: nat): seq<Event<T>> { seq(n, _ => HubTurn) }

  lemma TurnFirst<T>(s: State<T>, n: nat)
    requires Enabled(s, HubTurn) && Allowed(Apply(s, HubTurn), Turns(n))
    ensures Allowed(s, Turns(n + 1)) && Run(s, Turns(n + 1)) == Run(Apply(s, HubTurn), Turns(n))
  {
    assert Turns<T>(n + 1)[1..] == Turns(n);
  }

  /** The pass is a run of the hub's turns, so all that holds in every run holds after it: it comes to its end and leaves nobody who could move. */
  lemma {:induction false} PassIsRun<T>(s: State<T>) returns (n: nat)
    requires s.hub.AtTop?
    ensures n <= 2 * (|s.putters| + |s.getters|) + 1
    ensures Allowed(s, Turns(n)) && Run(s, Turns(n)) == Pass(s)
    decreases |s.putters| + |s.getters|
  {
    var s1 := UnlockTop(s);
    var m := 0;
    if s1.hub.AtMid? {
      m := PassIsRun(UnlockMid(s1));
      TurnFirst(s1, m);
      m := m + 1;
    } else if s1.hub.AtTop? {
      m := PassIsRun(s1);
    }
    TurnFirst(s, m);
    n := m + 1;
  }

  // ---- The queue object ----

  datatype PutResult = Done | Full | Blocked

  datatype GetResult<T> = Got(item: Item<T>) | Empty | Blocked

  class Queue<T> {
    var maxsize: int
    var queue: seq<Item<T>>
    var getters: seq<Getter>
    var putters: seq<Item<T>>
    var eventUnlock: bool
    var next: nat
    ghost var hub: Hub<T>
    ghost var entered: seq<Item<T>>
    ghost var served: seq<Handed<T>>
    ghost var puts: seq<Item<T>>
    ghost var gets: seq<Getter>
    ghost var gonePuts: seq<Item<T>>
    ghost var goneGets: seq<Getter>

    ghost function Now(): State<T>
      reads this
    {
      State(maxsize, queue, getters, putters, eventUnlock, hub, next, entered, served, puts, gets, gonePuts, goneGets)
    }

    constructor (bound: int)
      ensures Now() == Init(bound)
    {
      maxsize := if bound <= 0 then -1 else bound;
      queue, getters, putters, eventUnlock, next := [], [], [], false, 0;
      hub, entered, served := Free, [], [];
      puts, gets, gonePuts, goneGets := [], [], [], [];
    }

    /** _put */
    method Append(i: Item<T>)
      modifies this
      ensures Now() == Enter(old(Now()), i)
    {
      queue := queue + [i];
      entered := entered + [i];
    }

    /** _get or _peek */
    method Hand(ticket: nat, peek: bool) returns (i: Item<T>)
      requires queue != []
      modifies this
      ensures Now() == Serve(old(Now()), ticket, peek) && i == old(queue[0])
    {
      i := queue[0];
      served := served + [Handed(ticket, i, peek)];
      if !peek { queue := queue[1..]; }
    }

    method ScheduleUnlock()
      modifies this
      ensures Now() == Schedule(old(Now()))
    {
      if !eventUnlock { eventUnlock := true; }
    }

    /** The getter at the front is switched to; it takes its item before anyone else runs. */
    method SwitchToGetter()
      requires getters != [] && queue != []
      modifies this
      ensures Now() == Wake(old(Now()))
    {
      var getter := getters[0];
      getters := getters[1..];
      var _ := Hand(getter.ticket, getter.peek);
    }

    /** put_and_switch, or the two lines of _unlock that do the same. */
    method AdmitPutter()
      requires putters != []
      modifies this
      ensures Now() == Admit(old(Now()))
    {
      var putter := putters[0];
      putters := putters[1..];
      Append(putter);
    }

    method NewPut(value: T) returns (i: Item<T>)
      modifies this
      ensures Now() == CallPut(old(Now()), value) && i == Item(old(next), value)
    {
      i := Item(next, value);
      next := next + 1;
      puts := puts + [i];
    }

    method NewGet(peek: bool) returns (ticket: nat)
      modifies this
      ensures Now() == CallGet(old(Now()), peek) && ticket == old(next)
    {
      ticket := next;
      next := next + 1;
      gets := gets + [Getter(ticket, peek)];
    }

    method Put(value: T, block: bool) returns (r: PutResult)
      modifies this
      ensures Now() == PutStep(old(Now()), value, block)
      ensures r == if Room(old(Now())) then Done else if block then PutResult.Blocked else Full
    {
      var i := NewPut(value);
      if maxsize == -1 || |queue| < maxsize {
        Append(i);
        if getters != [] { ScheduleUnlock(); }
        r := Done;
      } else if block {
        putters := putters + [i];
        if getters != [] { ScheduleUnlock(); }
        r := PutResult.Blocked;
      } else {
        gonePuts := gonePuts + [i];
        r := Full;
      }
    }

    /** The hub cannot wait, but it can let waiting getters make room. */
    method PutAfterGetters(i: Item<T>) returns (r: PutResult)
      requires hub == Putting(i)
      modifies this
      ensures Now() == HubPutAll(old(Now()), i)
      ensures r == if |entered| == |old(entered)| then Full else Done
    {
      ghost var s := Now();
      while getters != [] && queue != [] && |queue| >= maxsize
        invariant hub == Putting(i)
        invariant HubPutAll(Now(), i) == HubPutAll(s, i)
        invariant entered == old(entered)
        decreases |getters|
      {
        SwitchToGetter();
      }
      hub := Free;
      if |queue| < maxsize {
        Append(i);
        return Done;
      }
      gonePuts := gonePuts + [i];
      r := Full;
    }

    method PutFromHub(value: T) returns (r: PutResult)
      requires hub.Free?
      modifies this
      ensures
        var i := Item(old(next), value);
        var s := old(Now());
        Now() == if Room(s) then PutStep(s, value, false) else HubPutAll(CallPut(s, value).(hub := Putting(i)), i)
      ensures r == if |entered| == |old(entered)| then Full else Done
    {
      if maxsize == -1 || |queue| < maxsize {
        r := Put(value, false);
      } else {
        var i := NewPut(value);
        hub := Putting(i);
        r := PutAfterGetters(i);
      }
    }

    method Get(peek: bool, block: bool) returns (r: GetResult<T>)
      modifies this
      ensures Now() == GetStep(old(Now()), peek, block)
      ensures r == if old(queue) != [] then Got(old(queue[0])) else if block then GetResult.Blocked else Empty
    {
      var ticket := NewGet(peek);
      if queue != [] {
        if putters != [] && !peek { ScheduleUnlock(); }
        var i := Hand(ticket, peek);
        return Got(i);
      }
      if !block {
        goneGets := goneGets + [Getter(ticket, peek)];
        return Empty;
      }
      getters := getters + [Getter(ticket, peek)];
      if putters != [] { ScheduleUnlock(); }
      r := GetResult.Blocked;
    }

    method GetFromHub(peek: bool) returns (r: GetResult<T>)
      requires hub.Free?
      modifies this
      ensures Now() == HubGetAll(old(Now()), peek)
      ensures r == if old(queue) != [] then Got(old(queue[0])) else if old(putters) != [] then Got(old(putters[0])) else Empty
    {
      if queue != [] {
        r := Get(peek, false);
        return;
      }
      var ticket := NewGet(peek);
      // The source loops over the putters, but the first one leaves an item to return.
      if putters != [] {
        AdmitPutter();
        var i := Hand(ticket, peek);
        r := Got(i);
      } else {
        goneGets := goneGets + [Getter(ticket, peek)];
        r := Empty;
      }
    }

    method Unlock()
      requires hub.Free?
      modifies this
      ensures Now() == Pass(old(Now()).(hub := AtTop))
    {
      hub := AtTop;
      ghost var s := Now();
      var repeated := true;
      while repeated
        invariant repeated ==> hub.AtTop? && Pass(Now()) == Pass(s)
        invariant !repeated ==> hub.Free? && Now() == Pass(s)
        decreases |putters| + |getters| + (if repeated then 1 else 0)
      {
        repeated := false;
        if putters != [] && (maxsize == -1 || |queue| < maxsize) {
          repeated := true;
          AdmitPutter();
        }
        if getters != [] && queue != [] {
          repeated := true;
          SwitchToGetter();
        }
        if !repeated {
          eventUnlock := false;
          hub := Free;
        }
      }
    }
  }
}
