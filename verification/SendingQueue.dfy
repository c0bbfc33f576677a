/** The sending queue of a socket channel and the completion events of the senders that wait on it. */
module SendingQueue {
  import opened Wire
  import opened Routing

  /** One entry; `done` is the ticket of the event its sender waits on, if it waits. */
  datatype Entry = Entry(frame: Frame, done: Option<nat>)

  /** The outcome a waiting sender gets: true from send(True), false from send_exception. */
  type Outcomes = map<nat, bool>

  function Frames(es: seq<Entry>): (fs: seq<Frame>)
    ensures |fs| == |es| && forall i :: 0 <= i < |es| ==> fs[i] == es[i].frame
  {
    if es == [] then [] else Frames(es[..|es| - 1]) + [es[|es| - 1].frame]
  }

  /** The entries a packet test leaves in the queue, in order. */
  function Kept(es: seq<Entry>, test: Frame -> bool): seq<Entry> {
    if es == [] then []
    else
      var e := es[|es| - 1];
      if test(e.frame) then Kept(es[..|es| - 1], test) else Kept(es[..|es| - 1], test) + [e]
  }

  /** Every waiting sender among es that the test picks out gets an IOError. */
  function Failed(out: Outcomes, es: seq<Entry>, test: Frame -> bool): Outcomes {
    if es == [] then out
    else
      var e := es[|es| - 1];
      var before := Failed(out, es[..|es| - 1], test);
      if test(e.frame) && e.done.Some? then before[e.done.value := false] else before
  }

  /** Outcomes once given are never taken back or changed. */
  predicate Keeps(out: Outcomes, out1: Outcomes) {
    forall t :: t in out ==> t in out1 && out1[t] == out[t]
  }

  predicate Waits(e: Entry, t: nat) { e.done == Some(t) }

  predicate WaitsIn(es: seq<Entry>, t: nat) {
    exists i :: 0 <= i < |es| && Waits(es[i], t)
  }

  ghost predicate OneEach(es: seq<Entry>) {
    forall i, j :: 0 <= i < j < |es| && es[i].done.Some? ==> es[i].done != es[j].done
  }

  lemma Snoc(es: seq<Entry>, e: Entry, test: Frame -> bool, out: Outcomes)
    ensures Kept(es + [e], test) == if test(e.frame) then Kept(es, test) else Kept(es, test) + [e]
    ensures Failed(out, es + [e], test) ==
              if test(e.frame) && e.done.Some? then Failed(out, es, test)[e.done.value := false] else Failed(out, es, test)
    ensures Frames(es + [e]) == Frames(es) + [e.frame]
  {
    assert (es + [e])[..|es|] == es;
  }

  /** The sender with ticket t waits on a packet that the test picks. */
  ghost predicate Picked(es: seq<Entry>, test: Frame -> bool, t: nat) {
    WaitsIn(es, t) && !WaitsIn(Kept(es, test), t)
  }

  lemma {:induction false} KeptWaits(es: seq<Entry>, test: Frame -> bool, t: nat)
    ensures WaitsIn(Kept(es, test), t) ==> WaitsIn(es, t)
  {
    if es != [] {
      var n := |es| - 1;
      KeptWaits(es[..n], test, t);
      assert es == es[..n] + [es[n]];
      WaitsSnoc(es[..n], es[n], t);
      WaitsSnoc(Kept(es[..n], test), es[n], t);
    }
  }

  lemma LastWaitsAlone(es: seq<Entry>, t: nat)
    requires OneEach(es) && es != [] && Waits(es[|es| - 1], t)
    ensures !WaitsIn(es[..|es| - 1], t)
  {
    var init := es[..|es| - 1];
    forall i | 0 <= i < |init| ensures !Waits(init[i], t) {
      if es[i].done.Some? { assert es[i].done != es[|es| - 1].done; }
    }
  }

  lemma PickedSnoc(es: seq<Entry>, test: Frame -> bool, t: nat)
    requires OneEach(es) && es != []
    ensures var init, e := es[..|es| - 1], es[|es| - 1];
      if Waits(e, t) then (Picked(es, test, t) <==> test(e.frame)) && !Picked(init, test, t) else Picked(es, test, t) <==> Picked(init, test, t)
  {
    var init, e := es[..|es| - 1], es[|es| - 1];
    assert es == init + [e];
    WaitsSnoc(init, e, t);
    WaitsSnoc(Kept(init, test), e, t);
    KeptWaits(init, test, t);
    if Waits(e, t) { LastWaitsAlone(es, t); }
  }

  /** A cleaning resolves exactly the picked waiting senders, with a failure; no other outcome changes. */
  lemma {:induction false} FailedExactly(out: Outcomes, es: seq<Entry>, test: Frame -> bool, t: nat)
    requires OneEach(es)
    ensures t in Failed(out, es, test) <==> t in out || Picked(es, test, t)
    ensures t in Failed(out, es, test) ==> Failed(out, es, test)[t] == if Picked(es, test, t) then false else out[t]
  {
    if es != [] {
      FailedExactly(out, es[..|es| - 1], test, t);
      PickedSnoc(es, test, t);
    }
  }

  lemma WaitsSnoc(es: seq<Entry>, e: Entry, t: nat)
    ensures WaitsIn(es + [e], t) <==> WaitsIn(es, t) || Waits(e, t)
  {
    var s := es + [e];
    if WaitsIn(es, t) {
      var i :| 0 <= i < |es| && Waits(es[i], t);
      assert Waits(s[i], t);
    }
    if Waits(e, t) { assert Waits(s[|es|], t); }
  }

  lemma WaitsCons(e: Entry, es: seq<Entry>, t: nat)
    ensures WaitsIn([e] + es, t) <==> Waits(e, t) || WaitsIn(es, t)
  {
    var s := [e] + es;
    if WaitsIn(s, t) {
      var i :| 0 <= i < |s| && Waits(s[i], t);
      if i > 0 { assert Waits(es[i - 1], t); }
    }
    if WaitsIn(es, t) {
      var i :| 0 <= i < |es| && Waits(es[i], t);
      assert Waits(s[i + 1], t);
    }
    if Waits(e, t) { assert Waits(s[0], t); }
  }

  lemma HeadWaitsAlone(es: seq<Entry>)
    requires OneEach(es) && es != [] && es[0].done.Some?
    ensures !WaitsIn(es[1..], es[0].done.value)
  {
    forall i | 0 <= i < |es[1..]| ensures !Waits(es[1..][i], es[0].done.value) {
      assert es[0].done != es[i + 1].done;
    }
  }

  lemma {:induction false} KeptOneEach(es: seq<Entry>, test: Frame -> bool)
    requires OneEach(es)
    ensures OneEach(Kept(es, test))
  {
    if es != [] {
      var n := |es| - 1;
      KeptOneEach(es[..n], test);
      var k := Kept(es[..n], test);
      var e := es[n];
      forall i | 0 <= i < |k| && k[i].done.Some? ensures k[i].done != e.done {
        var t := k[i].done.value;
        assert Waits(k[i], t);
        KeptWaits(es[..n], test, t);
        var j :| 0 <= j < n && Waits(es[..n][j], t);
        assert es[j].done == Some(t);
      }
    }
  }

  /** No packet survives a test that picks everything. */
  lemma {:induction false} KeptNone(es: seq<Entry>)
    ensures Kept(es, (f: Frame) => true) == []
  {
    if es != [] { KeptNone(es[..|es| - 1]); }
  }

  /** A ticket handed out is resolved, or its packet is queued or being written: exactly one of the three. */
  ghost predicate Accounted(entries: seq<Entry>, inFlight: Option<Entry>, outcomes: Outcomes, nextTicket: nat) {
    && OneEach(entries)
    && (forall t: nat :: t in outcomes || WaitsIn(entries, t) || (inFlight.Some? && Waits(inFlight.value, t)) <==> t < nextTicket)
    && (forall t :: t in outcomes ==> !WaitsIn(entries, t))
    && (inFlight.Some? && inFlight.value.done.Some? ==>
          inFlight.value.done.value !in outcomes && !WaitsIn(entries, inFlight.value.done.value))
  }

  /** A cleaning keeps every ticket accounted for, and no outcome is changed. */
  lemma CleanAccounted(all: seq<Entry>, inFlight: Option<Entry>, out: Outcomes, nextTicket: nat, test: Frame -> bool)
    requires Accounted(all, inFlight, out, nextTicket)
    ensures Accounted(Kept(all, test), inFlight, Failed(out, all, test), nextTicket)
    ensures Keeps(out, Failed(out, all, test))
  {
    var entries, outcomes := Kept(all, test), Failed(out, all, test);
    KeptOneEach(all, test);
    forall t: nat
      ensures WaitsIn(entries, t) ==> WaitsIn(all, t)
      ensures t in outcomes <==> t in out || (WaitsIn(all, t) && !WaitsIn(entries, t))
      ensures t in out ==> outcomes[t] == out[t]
    {
      FailedExactly(out, all, test, t);
      KeptWaits(all, test, t);
    }
  }

  /** A cleaning that has come as far as `left`. */
  ghost predicate Cleaning(all: seq<Entry>, out: Outcomes, test: Frame -> bool,
                           done: seq<Entry>, left: seq<Entry>, reserved: seq<Entry>, outcomes: Outcomes) {
    all == done + left && reserved == Kept(done, test) && outcomes == Failed(out, done, test)
  }

  lemma CleaningStep(all: seq<Entry>, out: Outcomes, test: Frame -> bool,
                     done: seq<Entry>, left: seq<Entry>, reserved: seq<Entry>, outcomes: Outcomes)
    requires left != [] && Cleaning(all, out, test, done, left, reserved, outcomes)
    ensures var e := left[0];
      Cleaning(all, out, test, done + [e], left[1..], if test(e.frame) then reserved else reserved + [e],
               if test(e.frame) && e.done.Some? then outcomes[e.done.value := false] else outcomes)
  {
    Snoc(done, left[0], test, out);
    assert done + left == done + [left[0]] + left[1..];
  }

  lemma CleaningEnds(all: seq<Entry>, out: Outcomes, test: Frame -> bool, done: seq<Entry>, reserved: seq<Entry>, outcomes: Outcomes)
    requires Cleaning(all, out, test, done, [], reserved, outcomes)
    ensures reserved == Kept(all, test) && outcomes == Failed(out, all, test)
  {
    assert done + [] == done;
  }

  class Queue {
    var entries: seq<Entry>
    var inFlight: Option<Entry>
    var outcomes: Outcomes
    var nextTicket: nat

    ghost predicate Valid() reads this { Accounted(entries, inFlight, outcomes, nextTicket) }

    constructor ()
      ensures Valid() && entries == [] && inFlight == None && outcomes == map[] && nextTicket == 0
    {
      entries, inFlight, outcomes, nextTicket := [], None, map[], 0;
    }

    /** sending_queue.put; with `wait` a completion event goes with the packet. */
    method Put(frame: Frame, wait: bool) returns (done: Option<nat>)
      requires Valid()
      modifies this
      ensures Valid()
      ensures entries == old(entries) + [Entry(frame, done)]
      ensures inFlight == old(inFlight) && outcomes == old(outcomes)
      ensures done == if wait then Some(old(nextTicket)) else None
    {
      done := if wait then Some(nextTicket) else None;
      ghost var before := entries;
      entries := entries + [Entry(frame, done)];
      nextTicket := if wait then nextTicket + 1 else nextTicket;
      forall t: nat ensures WaitsIn(entries, t) <==> WaitsIn(before, t) || done == Some(t) {
        WaitsSnoc(before, Entry(frame, done), t);
      }
      assert OneEach(entries) by {
        forall i, j | 0 <= i < j < |entries| && entries[i].done.Some? ensures entries[i].done != entries[j].done {
          if j == |before| {
            assert Waits(before[i], entries[i].done.value);
            assert WaitsIn(before, entries[i].done.value);
          }
        }
      }
    }

    /** The first loop of _clean_sending_packet: everything is taken out, what is picked fails. */
    method TakeAll(test: Frame -> bool) returns (reserved: seq<Entry>)
      modifies this`entries, this`outcomes
      ensures entries == [] && reserved == Kept(old(entries), test)
      ensures outcomes == Failed(old(outcomes), old(entries), test)
    {
      ghost var all, out := entries, outcomes;
      reserved := [];
      ghost var done: seq<Entry> := [];
      while entries != []
        invariant Cleaning(all, out, test, done, entries, reserved, outcomes)
        decreases |entries|
      {
        CleaningStep(all, out, test, done, entries, reserved, outcomes);
        var e := entries[0];
        entries := entries[1..];
        if test(e.frame) {
          if e.done.Some? { outcomes := outcomes[e.done.value := false]; }
        } else {
          reserved := reserved + [e];
        }
        done := done + [e];
      }
      CleaningEnds(all, out, test, done, reserved, outcomes);
    }

    /** _clean_sending_packet of the socket channel. */
    method Clean(test: Frame -> bool)
      requires Valid()
      modifies this
      ensures Valid() && inFlight == old(inFlight) && nextTicket == old(nextTicket)
      ensures entries == Kept(old(entries), test)
      ensures outcomes == Failed(old(outcomes), old(entries), test) && Keeps(old(outcomes), outcomes)
    {
      CleanAccounted(entries, inFlight, outcomes, nextTicket, test);
      var reserved := TakeAll(test);
      var j := 0;
      while j < |reserved|
        invariant 0 <= j <= |reserved| && entries == reserved[..j]
        invariant outcomes == Failed(old(outcomes), old(entries), test) && inFlight == old(inFlight) && nextTicket == old(nextTicket)
      {
        entries := entries + [reserved[j]];
        j := j + 1;
      }
      assert entries == reserved;
    }

    /** The loop in close() of the socket channel: every queued packet is dropped, every waiting sender gets an IOError. */
    method Drain()
      requires Valid()
      modifies this
      ensures Valid() && entries == [] && inFlight == old(inFlight) && nextTicket == old(nextTicket)
      ensures outcomes == Failed(old(outcomes), old(entries), (f: Frame) => true) && Keeps(old(outcomes), outcomes)
    {
      ghost var all, out := entries, outcomes;
      ghost var test := (f: Frame) => true;
      ghost var done: seq<Entry> := [];
      while entries != []
        invariant Cleaning(all, out, test, done, entries, [], outcomes)
        invariant inFlight == old(inFlight) && nextTicket == old(nextTicket)
        decreases |entries|
      {
        CleaningStep(all, out, test, done, entries, [], outcomes);
        var e := entries[0];
        entries := entries[1..];
        if e.done.Some? { outcomes := outcomes[e.done.value := false]; }
        done := done + [e];
      }
      CleaningEnds(all, out, test, done, [], outcomes);
      KeptNone(all);
      CleanAccounted(all, inFlight, out, nextTicket, test);
    }

    /** _do_send takes the next packet. */
    method Begin() returns (e: Entry)
      requires Valid() && inFlight == None && entries != []
      modifies this
      ensures Valid() && outcomes == old(outcomes) && nextTicket == old(nextTicket)
      ensures e == old(entries)[0] && entries == old(entries)[1..] && inFlight == Some(e)
    {
      ghost var before := entries;
      e := entries[0];
      entries := entries[1..];
      inFlight := Some(e);
      assert before == [e] + entries;
      forall t: nat ensures WaitsIn(before, t) <==> Waits(e, t) || WaitsIn(entries, t) {
        WaitsCons(e, entries, t);
      }
      if e.done.Some? { HeadWaitsAlone(before); }
    }

    /** ... and tells its sender how the write went: done.send(True) or done.send_exception. */
    method End(sent: bool)
      requires Valid() && inFlight.Some?
      modifies this
      ensures Valid() && entries == old(entries) && inFlight == None && nextTicket == old(nextTicket)
      ensures var d := old(inFlight).value.done; outcomes == if d.Some? then old(outcomes)[d.value := sent] else old(outcomes)
      ensures Keeps(old(outcomes), outcomes)
    {
      var d := inFlight.value.done;
      if d.Some? { outcomes := outcomes[d.value := sent]; }
      inFlight := None;
    }

    /** Once the queue is drained and no packet is being written, every sender that ever waited has its one outcome. */
    lemma NobodyLeftWaiting()
      requires Valid() && entries == [] && inFlight == None
      ensures forall t: nat :: t < nextTicket <==> t in outcomes
    {
      assert forall t: nat :: !WaitsIn(entries, t);
    }
  }
}
