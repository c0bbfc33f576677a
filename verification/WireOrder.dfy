/** The order in which packets go on the wire: what a sender queued, less what was purged before its turn came. */
module WireOrder {
  import opened Wire
  import opened ChannelTree
  import opened TreeInvariant
  import opened EndHistory
  import opened EndChange
  import opened EndClose
  import opened Protocol
  import opened ProtocolTheorems

  /** s can be made from t by leaving packets out. */
  ghost predicate Within(s: seq<Msg>, t: seq<Msg>)
    decreases |t|
  {
    || s == []
    || (t != [] && s[|s| - 1] == t[|t| - 1] && Within(s[..|s| - 1], t[..|t| - 1]))
    || (t != [] && Within(s, t[..|t| - 1]))
  }

  lemma WithinSnoc(s: seq<Msg>, t: seq<Msg>, m: Msg)
    requires Within(s, t)
    ensures Within(s, t + [m]) && Within(s + [m], t + [m])
  {
    assert (t + [m])[..|t|] == t && (s + [m])[..|s|] == s;
  }

  lemma {:induction false} WithinTransitive(r: seq<Msg>, s: seq<Msg>, t: seq<Msg>)
    requires Within(r, s) && Within(s, t)
    ensures Within(r, t)
    decreases |t|
  {
    if r == [] {
    } else if Within(s, t[..|t| - 1]) {
      WithinTransitive(r, s, t[..|t| - 1]);
    } else if Within(r, s[..|s| - 1]) {
      WithinTransitive(r, s[..|s| - 1], t[..|t| - 1]);
    } else {
      WithinTransitive(r[..|r| - 1], s[..|s| - 1], t[..|t| - 1]);
    }
  }

  lemma {:induction false} WithinSame(s: seq<Msg>)
    ensures Within(s, s)
    decreases |s|
  {
    if s != [] { WithinSame(s[..|s| - 1]); }
  }

  lemma {:induction false} PrefixWithin(s: seq<Msg>, rest: seq<Msg>)
    ensures Within(s, s + rest)
    decreases |rest|
  {
    if rest == [] {
      WithinSame(s);
      assert s + rest == s;
    } else {
      assert (s + rest)[..|s + rest| - 1] == s + rest[..|rest| - 1];
      PrefixWithin(s, rest[..|rest| - 1]);
    }
  }

  /** A purge of what is still queued leaves packets out and moves none. */
  lemma {:induction false} PurgeWithin(sent: seq<Msg>, queue: seq<Msg>, q: Path)
    ensures Within(sent + Purge(queue, q), sent + queue)
    decreases |queue|
  {
    if queue == [] {
      WithinSame(sent + queue);
    } else {
      var queue1, m := queue[..|queue| - 1], queue[|queue| - 1];
      PurgeWithin(sent, queue1, q);
      WithinSnoc(sent + Purge(queue1, q), sent + queue1, m);
      assert sent + queue == sent + queue1 + [m];
      if Under(m.path, q) {
        assert Purge(queue, q) == Purge(queue1, q);
      } else {
        assert sent + Purge(queue, q) == sent + Purge(queue1, q) + [m];
      }
    }
  }

  lemma {:induction false} WithinElement(s: seq<Msg>, t: seq<Msg>, m: Msg)
    requires Within(s, t) && m in s
    ensures m in t
    decreases |t|
  {
    var last := s[|s| - 1];
    assert s == s[..|s| - 1] + [last];
    if last == t[|t| - 1] && Within(s[..|s| - 1], t[..|t| - 1]) {
      if m != last { WithinElement(s[..|s| - 1], t[..|t| - 1], m); }
    } else {
      WithinElement(s, t[..|t| - 1], m);
    }
  }

  lemma {:induction false} SilentWithin(s: seq<Msg>, t: seq<Msg>)
    requires Within(s, t) && SilentAfterDestroy(t)
    ensures SilentAfterDestroy(s)
    decreases |t|
  {
    if s != [] {
      var s1, t1, last := s[..|s| - 1], t[..|t| - 1], s[|s| - 1];
      if last == t[|t| - 1] && Within(s1, t1) {
        SilentWithin(s1, t1);
        forall i | 0 <= i < |s| - 1 && s[i].body.DestroyChannel? ensures !Under(last.path, Sub(s[i].path, s[i].body.number)) {
          assert s[i] == s1[i];
          WithinElement(s1, t1, s[i]);
          var j :| 0 <= j < |t1| && t1[j] == s[i];
          assert t[j] == s[i];
        }
        assert forall i :: 0 <= i < |s1| ==> s1[i] == s[i];
      } else {
        SilentWithin(s, t1);
      }
    }
  }

  // ---- Runs ----

  function EndOf(n: Net, atA: bool): End { if atA then n.a else n.b }

  /** What one end has put on the wire in the first i steps of a run. */
  function Wired(states: seq<Net>, events: seq<Event>, atA: bool, i: nat): seq<Msg>
    requires Run(states, events) && i <= |events|
  {
    if i == 0 then []
    else
      var queue := EndOf(states[i - 1], atA).conn.queue;
      Wired(states, events, atA, i - 1) + if events[i - 1] == Event(atA, TransmitOne) && queue != [] then [queue[0]] else []
  }

  /** A step other than a transmission adds at most one packet to the queue and may then purge it. */
  predicate Trims(e: End, e1: End, ms: seq<Msg>, q: Path) {
    && e1.emitted == e.emitted + ms && |ms| <= 1
    && (e1.conn.queue == e.conn.queue + ms || e1.conn.queue == [] || e1.conn.queue == Purge(e.conn.queue + ms, q))
  }

  lemma ArriveTrims(e: End, m: Msg) returns (ms: seq<Msg>, q: Path)
    ensures Trims(e, Arrive(e, m), ms, q)
  {
    ms, q := [], Root;
    assert e.emitted + [] == e.emitted && e.conn.queue + [] == e.conn.queue;
    if WireSize(m) <= e.conn.maxPayload && Open(e.conn, m.path) {
      if QuietBody(m.body) {
        HandleShape(e, m);
        ms := HandleEmits(e, m);
      } else if m.body.DestroyChannel? {
        q := Sub(m.path, m.body.number);
      }
    }
  }

  lemma StepTrims(n: Net, act: Action) returns (ms: seq<Msg>, q: Path)
    requires EnabledAtA(n, act) && !act.TransmitOne?
    ensures Trims(n.a, StepAtA(n, act).a, ms, q)
  {
    ms, q := [], Root;
    assert n.a.emitted + [] == n.a.emitted && n.a.conn.queue + [] == n.a.conn.queue;
    match act
    case MakeSub(p) => ms := [Msg(p, MakeChannel(n.a.conn.nodes[p].next))];
    case CloseSub(x) => ms, q := [Msg(x.parent, DestroyChannel(x.number))], x;
    case Send(p, d, _) => ms := [Msg(p, Data(d))];
    case SendKeepalive => ms := [Msg(Root, Keepalive)];
    case Recv(p) =>
      TakeShape(n.a, p);
      ms := TakeEmits(n.a, p);
    case DeliverOne => ms, q := ArriveTrims(n.a, n.ba[0]);
    case _ =>
  }

  lemma TrimsWithin(sent: seq<Msg>, e: End, e1: End, ms: seq<Msg>, q: Path)
    requires Within(sent + e.conn.queue, e.emitted) && Trims(e, e1, ms, q)
    ensures Within(sent + e1.conn.queue, e1.emitted)
  {
    var s := sent + e.conn.queue;
    if ms != [] {
      WithinSnoc(s, e.emitted, ms[0]);
      assert ms == [ms[0]];
    } else {
      assert s + ms == s && e.emitted + ms == e.emitted;
    }
    assert s + ms == sent + (e.conn.queue + ms);
    if e1.conn.queue == [] {
      PrefixWithin(sent, e.conn.queue + ms);
      WithinTransitive(sent, sent + (e.conn.queue + ms), e1.emitted);
      assert sent + [] == sent;
    } else if e1.conn.queue != e.conn.queue + ms {
      PurgeWithin(sent, e.conn.queue + ms, q);
      WithinTransitive(sent + e1.conn.queue, sent + (e.conn.queue + ms), e1.emitted);
    }
  }

  lemma TransmitWithin(sent: seq<Msg>, e: End)
    requires Within(sent + e.conn.queue, e.emitted) && e.conn.queue != []
    ensures Within(sent + [e.conn.queue[0]] + e.conn.queue[1..], e.emitted)
  {
    assert sent + [e.conn.queue[0]] + e.conn.queue[1..] == sent + e.conn.queue;
  }

  lemma WiredStep(n: Net, act: Action, sent: seq<Msg>)
    requires EnabledAtA(n, act) && Within(sent + n.a.conn.queue, n.a.emitted)
    ensures
      var wire := if act.TransmitOne? then [n.a.conn.queue[0]] else [];
      var e := StepAtA(n, act).a;
      Within(sent + wire + e.conn.queue, e.emitted)
  {
    if act.TransmitOne? {
      TransmitWithin(sent, n.a);
    } else {
      var ms, q := StepTrims(n, act);
      TrimsWithin(sent, n.a, StepAtA(n, act).a, ms, q);
      assert sent + [] == sent;
    }
  }

  lemma OtherEndStays(n: Net, act: Action)
    requires EnabledAtA(n, act)
    ensures StepAtA(n, act).b == n.b
  {
  }

  /** What has gone on the wire, followed by what is queued, is what was queued in the same order, less what was purged. */
  lemma {:induction false} WiredInOrder(states: seq<Net>, events: seq<Event>, atA: bool, i: nat)
    requires Run(states, events) && i <= |events|
    ensures
      var e := EndOf(states[i], atA);
      Within(Wired(states, events, atA, i) + e.conn.queue, e.emitted)
  {
    if i > 0 {
      WiredInOrder(states, events, atA, i - 1);
      var n, ev := states[i - 1], events[i - 1];
      var sent := Wired(states, events, atA, i - 1);
      assert states[i - 1 + 1] == Apply(n, ev);
      if ev.atA == atA {
        WiredStep(if atA then n else Swap(n), ev.action, sent);
      } else {
        OtherEndStays(if ev.atA then n else Swap(n), ev.action);
        assert sent + [] == sent;
      }
    }
  }

  /** On the wire no packet of a channel, or of one below it, follows that channel's DESTROY, and none is queued to follow it. */
  lemma SilentOnWire(states: seq<Net>, events: seq<Event>, atA: bool, i: nat)
    requires Run(states, events) && i <= |events|
    ensures SilentAfterDestroy(Wired(states, events, atA, i) + EndOf(states[i], atA).conn.queue)
  {
    WiredInOrder(states, events, atA, i);
    SilentRun(states, events, i);
    SilentWithin(Wired(states, events, atA, i) + EndOf(states[i], atA).conn.queue, EndOf(states[i], atA).emitted);
  }

  // ---- The other side of the wire ----

  /** What is still on the link went on the wire last; before that went what the other end accepted, and what found its channel closed. */
  ghost predicate Arrived(wired: seq<Msg>, link: seq<Msg>, accepted: seq<Msg>) {
    && |link| <= |wired| && wired[|wired| - |link|..] == link
    && Within(accepted, wired[..|wired| - |link|])
  }

  lemma SendArrived(wired: seq<Msg>, link: seq<Msg>, accepted: seq<Msg>, m: Msg)
    requires Arrived(wired, link, accepted)
    ensures Arrived(wired + [m], link + [m], accepted)
  {
    var k := |wired| - |link|;
    assert (wired + [m])[..k] == wired[..k] && (wired + [m])[k..] == wired[k..] + [m];
  }

  lemma PopArrived(wired: seq<Msg>, link: seq<Msg>, accepted: seq<Msg>, taken: bool)
    requires Arrived(wired, link, accepted) && link != []
    ensures Arrived(wired, link[1..], if taken then accepted + [link[0]] else accepted)
  {
    var k := |wired| - |link|;
    assert wired[..k + 1] == wired[..k] + [wired[k]] && wired[k] == link[0];
    WithinSnoc(accepted, wired[..k], link[0]);
    assert wired[k + 1..] == link[1..];
  }

  lemma AcceptsHead(n: Net, act: Action) returns (taken: bool)
    requires EnabledAtA(n, act)
    ensures
      var n1 := StepAtA(n, act);
      && n1.ab == (if act.TransmitOne? then n.ab + [n.a.conn.queue[0]] else n.ab)
      && (if act.DeliverOne? then n1.ba == n.ba[1..] && n1.a.accepted == (if taken then n.a.accepted + [n.ba[0]] else n.a.accepted)
          else n1.ba == n.ba && n1.a.accepted == n.a.accepted)
  {
    taken := act.DeliverOne? && WireSize(n.ba[0]) <= n.a.conn.maxPayload && Open(n.a.conn, n.ba[0].path);
  }

  lemma ArrivedStep(n: Net, act: Action, wired: seq<Msg>, back: seq<Msg>)
    requires EnabledAtA(n, act) && Arrived(wired, n.ab, n.b.accepted) && Arrived(back, n.ba, n.a.accepted)
    ensures var n1 := StepAtA(n, act);
      && Arrived(wired + if act.TransmitOne? then [n.a.conn.queue[0]] else [], n1.ab, n1.b.accepted)
      && Arrived(back, n1.ba, n1.a.accepted)
  {
    var taken := AcceptsHead(n, act);
    OtherEndStays(n, act);
    if act.TransmitOne? {
      SendArrived(wired, n.ab, n.b.accepted, n.a.conn.queue[0]);
    } else {
      assert wired + [] == wired;
      if act.DeliverOne? { PopArrived(back, n.ba, n.a.accepted, taken); }
    }
  }

  lemma {:induction false} LinkIsLastWired(states: seq<Net>, events: seq<Event>, i: nat)
    requires Run(states, events) && i <= |events|
    ensures Arrived(Wired(states, events, true, i), states[i].ab, states[i].b.accepted)
    ensures Arrived(Wired(states, events, false, i), states[i].ba, states[i].a.accepted)
  {
    if i > 0 {
      LinkIsLastWired(states, events, i - 1);
      var n, ev := states[i - 1], events[i - 1];
      var ab, ba := Wired(states, events, true, i - 1), Wired(states, events, false, i - 1);
      assert states[i - 1 + 1] == Apply(n, ev);
      assert ab + [] == ab && ba + [] == ba;
      if ev.atA {
        ArrivedStep(n, ev.action, ab, ba);
      } else {
        ArrivedStep(Swap(n), ev.action, ba, ab);
      }
    }
  }
}
