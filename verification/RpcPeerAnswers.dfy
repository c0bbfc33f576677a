/** What this end answers: every request that was received is handled once, and answered at most once, under its own identifier, with what the
    method gave. */
module RpcPeerAnswers {
  import opened Wire
  import opened RpcPeer
  import opened RpcPeerTheorems

  /** The history of a run: the requests received while the peer was up, the ticket (the place in `asked`) of each handler, what was given by the
      method of a ticket, the tickets whose handler has ended, those that ended with nothing in the way of an answer, and whose each response is. */
  datatype Log = Log(asked: seq<Request>, ticket: map<nat, nat>, gave: map<nat, Choice>, ended: set<nat>, finished: set<nat>, whose: seq<nat>)

  function Ticket(log: Log, h: nat): nat { if h in log.ticket then log.ticket[h] else |log.asked| }

  /** The handler of this turn ends, and neither a shutdown, nor the authorization, nor the serializer keeps it from answering. */
  predicate EndsFreely(s: State, h: nat, choice: Choice, s1: State)
    requires h in s.handlers
  {
    h !in s1.handlers && !Cut(s) && choice.packs && (s.handlers[h].stage.Authorizing? ==> choice.auth)
  }

  function Asking(s: State, e: Event): Option<Request>
    requires Enabled(s, e)
  {
    if e.Receive? && !Cut(s) && s.inbox[0].Ask? && s.inbox[0].request.id != "" && s.inbox[0].request.methodName != ""
    then Some(s.inbox[0].request) else None
  }

  function Ends(log: Log, s: State, s1: State): set<nat> { set h | h in s.handlers && h !in s1.handlers :: Ticket(log, h) }

  /** One step, s to s1 by e, noted down. */
  function Note(log: Log, s: State, e: Event, s1: State): Log
    requires Enabled(s, e)
  {
    var log1 := log.(ended := log.ended + Ends(log, s, s1));
    var asking := Asking(s, e);
    if asking.Some? then log1.(asked := log.asked + [asking.value], ticket := log.ticket[e.h := |log.asked|])
    else if e.Handle? then
      var t := Ticket(log, e.h);
      log1.(gave := if s.handlers[e.h].stage.Calling? && !Cut(s) then log.gave[t := e.choice] else log.gave,
            finished := if EndsFreely(s, e.h, e.choice, s1) then log.finished + {t} else log.finished,
            whose := if |s1.sent| > |s.sent| then log.whose + [t] else log.whose)
    else log1
  }

  function LogOf(log: Log, s: State, events: seq<Event>): Log
    requires Allowed(s, events)
    decreases |events|
  {
    if events == [] then log else LogOf(Note(log, s, events[0], Apply(s, events[0])), Apply(s, events[0]), events[1..])
  }

  const NO_LOG := Log([], map[], map[], {}, {}, [])

  /** The one right answer to a request: the exception that the method threw, or its result, with a sub-channel when it is a stream; and "bad channel"
      when there is no sub-channel for the result, or none came with a stream among the arguments. */
  predicate RightAnswer(q: Request, given: Option<Choice>, r: Response) {
    match given
    case None => q.stream && r == Response(q.id, None, Some(BAD_CHANNEL), 0)
    case Some(g) =>
      if g.exception.Some? then r == Response(q.id, None, g.exception, 0)
      else if g.result.None? || !g.result.value.stream then r == Response(q.id, g.result, None, 0)
      else if g.number == 0 then r == Response(q.id, None, Some(BAD_CHANNEL), 0)
      else r == Response(q.id, g.result, None, g.number)
  }

  function GivenTo(log: Log, t: nat): Option<Choice> { if t in log.gave then Some(log.gave[t]) else None }

  ghost predicate AnswerAt(s: State, log: Log, i: nat) {
    i < |s.sent| ==>
      i < |log.whose| && log.whose[i] < |log.asked| && RightAnswer(log.asked[log.whose[i]], GivenTo(log, log.whose[i]), s.sent[i])
  }

  ghost predicate OnceAt(log: Log, i: nat, j: nat) { i < j < |log.whose| ==> log.whose[i] != log.whose[j] }

  /** A handler at work. */
  ghost predicate LiveAt(s: State, log: Log, h: nat) {
    h in s.handlers ==>
      var k := s.handlers[h];
      && h in log.ticket && log.ticket[h] < |log.asked| && k.request == log.asked[log.ticket[h]]
      && log.ticket[h] !in log.whose && log.ticket[h] !in log.ended
      && (if k.stage.MakingSocket? then RightAnswer(k.request, GivenTo(log, log.ticket[h]), k.response) && k.response.exception.None?
          else log.ticket[h] !in log.gave)
  }

  ghost predicate ApartAt(s: State, log: Log, h: nat, k: nat) {
    h in s.handlers && k in s.handlers && h != k && h in log.ticket && k in log.ticket ==> log.ticket[h] != log.ticket[k]
  }

  /** A request is in the hands of a handler, or its handling has ended. */
  ghost predicate CaredAt(s: State, log: Log, t: nat) {
    t < |log.asked| ==> t in log.ended || exists h :: h in s.handlers && h in log.ticket && log.ticket[h] == t
  }

  predicate Bounds(s: State, log: Log) {
    && |log.whose| == |s.sent|
    && (forall t :: t in log.gave ==> t < |log.asked|)
    && (forall t :: t in log.ended ==> t < |log.asked|)
    && (forall t :: t in log.whose ==> t < |log.asked|)
  }

  ghost predicate Answering(s: State, log: Log) {
    && Bounds(s, log)
    && (forall i: nat :: AnswerAt(s, log, i))
    && (forall i: nat, j: nat :: OnceAt(log, i, j))
    && (forall h: nat :: LiveAt(s, log, h))
    && (forall h: nat, k: nat :: ApartAt(s, log, h, k))
    && (forall t: nat :: CaredAt(s, log, t))
    && (forall t: nat :: t in log.finished <==> t in log.whose)
  }

  // ---- Turns of a handler ----

  /** What one turn of h does to the handlers and to what is sent. */
  ghost predicate Turn(s: State, s1: State, h: nat, stays: Option<Handler>, answer: Option<Response>) {
    && s1.handlers == (if stays.Some? then s.handlers[h := stays.value] else map k | k in s.handlers && k != h :: s.handlers[k])
    && s1.sent == (if answer.Some? then s.sent + [answer.value] else s.sent)
  }

  /** The number of a stream argument is missing, or its sub-channel is gone. */
  predicate BadChannel(s: State, q: Request) { q.stream && (q.channel == 0 || q.channel !in s.pending) }

  /** A turn that cannot go on, because of a shutdown or the authorization, ends the handler without an answer. */
  predicate Stopped(s: State, h: nat, choice: Choice)
    requires h in s.handlers
  {
    Cut(s) || (s.handlers[h].stage.Authorizing? && !choice.auth)
  }

  /** The method is called in the turn after the authorization, unless the sub-channel of a stream argument is missing. */
  lemma AuthorizedTurn(s: State, h: nat, choice: Choice)
    requires h in s.handlers && s.handlers[h].stage.Authorizing?
    ensures var q := s.handlers[h].request;
      var s1 := Apply(s, Handle(h, choice));
      if Stopped(s, h, choice) then Turn(s, s1, h, None, None)
      else if !BadChannel(s, q) then Turn(s, s1, h, Some(Handler(q, Calling, EMPTY)), None) && (q.channel != 0 ==> q.channel !in s1.pending)
      else Turn(s, s1, h, None, if choice.packs then Some(Response(q.id, None, Some(BAD_CHANNEL), 0)) else None)
  {
  }

  /** A raw socket is made for a stream that gets a sub-channel, if one is asked for. */
  predicate WantsSocket(choice: Choice) {
    choice.exception.None? && choice.result.Some? && choice.result.value.stream && choice.number != 0 && choice.raw
  }

  lemma CallingTurn(s: State, h: nat, choice: Choice) returns (r: Response)
    requires h in s.handlers && s.handlers[h].stage.Calling?
    ensures var q := s.handlers[h].request;
      var s1 := Apply(s, Handle(h, choice));
      && RightAnswer(q, Some(choice), r)
      && (if Cut(s) then Turn(s, s1, h, None, None)
          else if WantsSocket(choice) then Turn(s, s1, h, Some(Handler(q, MakingSocket, r)), None) && r.exception.None?
          else Turn(s, s1, h, None, if choice.packs then Some(r) else None))
  {
    var q := s.handlers[h].request;
    r := if choice.exception.Some? then Response(q.id, None, choice.exception, 0)
         else if choice.result.None? || !choice.result.value.stream then Response(q.id, choice.result, None, 0)
         else if choice.number == 0 then Response(q.id, None, Some(BAD_CHANNEL), 0)
         else Response(q.id, choice.result, None, choice.number);
  }

  lemma SocketTurn(s: State, h: nat, choice: Choice)
    requires h in s.handlers && s.handlers[h].stage.MakingSocket? && s.handlers[h].response.exception.None?
    ensures Turn(s, Apply(s, Handle(h, choice)), h, None, if !Cut(s) && choice.packs then Some(s.handlers[h].response) else None)
  {
  }

  // ---- The history of a step ----

  lemma EndsOne(log: Log, s: State, s1: State, h: nat)
    requires h in s.handlers && s1.handlers == map k | k in s.handlers && k != h :: s.handlers[k]
    ensures Ends(log, s, s1) == {Ticket(log, h)}
  {
  }

  lemma EndsNone(log: Log, s: State, s1: State)
    requires s.handlers.Keys <= s1.handlers.Keys
    ensures log.ended + Ends(log, s, s1) == log.ended
  {
    assert Ends(log, s, s1) == {};
  }

  /** The handler h goes on to another stage, and its method may have given something. */
  lemma StaysAnswering(s: State, log: Log, s1: State, log1: Log, h: nat, k: Handler, given: Option<Choice>)
    requires Answering(s, log) && h in s.handlers && Turn(s, s1, h, Some(k), None)
    requires h in log.ticket && log1 == log.(gave := if given.Some? then log.gave[log.ticket[h] := given.value] else log.gave)
    requires k.request == s.handlers[h].request && !s.handlers[h].stage.MakingSocket?
    requires if k.stage.MakingSocket? then given.Some? && RightAnswer(k.request, given, k.response) && k.response.exception.None? else given.None?
    ensures Answering(s1, log1)
  {
    assert LiveAt(s, log, h);
    forall i: nat ensures AnswerAt(s1, log1, i) {
      assert AnswerAt(s, log, i);
      if i < |s.sent| { assert log.whose[i] in log.whose; }
    }
    forall i: nat, j: nat ensures OnceAt(log1, i, j) { assert OnceAt(log, i, j); }
    forall g: nat ensures LiveAt(s1, log1, g) { assert LiveAt(s, log, g) && ApartAt(s, log, g, h); }
    forall g: nat, j: nat ensures ApartAt(s1, log1, g, j) { assert ApartAt(s, log, g, j); }
    forall t: nat ensures CaredAt(s1, log1, t) { assert CaredAt(s, log, t); }
  }

  /** The handler h ends, with an answer or without one. */
  lemma EndsAnswering(s: State, log: Log, s1: State, log1: Log, h: nat, given: Option<Choice>, answer: Option<Response>)
    requires Answering(s, log) && h in s.handlers && Turn(s, s1, h, None, answer)
    requires h in log.ticket && var t := log.ticket[h];
      && log1 == log.(gave := if given.Some? then log.gave[t := given.value] else log.gave,
                      ended := log.ended + {t},
                      finished := if answer.Some? then log.finished + {t} else log.finished,
                      whose := if answer.Some? then log.whose + [t] else log.whose)
      && (answer.Some? ==> RightAnswer(s.handlers[h].request, GivenTo(log1, t), answer.value))
    ensures Answering(s1, log1)
  {
    var t := log.ticket[h];
    assert LiveAt(s, log, h);
    forall i: nat ensures AnswerAt(s1, log1, i) {
      assert AnswerAt(s, log, i);
      if i < |s.sent| { assert log.whose[i] in log.whose; }
    }
    forall i: nat, j: nat ensures OnceAt(log1, i, j) {
      assert OnceAt(log, i, j);
      if i < |log.whose| { assert log.whose[i] in log.whose; }
    }
    forall g: nat ensures LiveAt(s1, log1, g) { assert LiveAt(s, log, g) && ApartAt(s, log, g, h); }
    forall g: nat, j: nat ensures ApartAt(s1, log1, g, j) { assert ApartAt(s, log, g, j); }
    forall u: nat ensures CaredAt(s1, log1, u) {
      assert CaredAt(s, log, u);
      if u < |log.asked| && u !in log1.ended {
        var g :| g in s.handlers && g in log.ticket && log.ticket[g] == u;
        assert g in s1.handlers;
      }
    }
  }

  lemma TurnAnswering(s: State, log: Log, h: nat, choice: Choice)
    requires Answering(s, log) && h in s.handlers
    ensures var s1 := Apply(s, Handle(h, choice)); Answering(s1, Note(log, s, Handle(h, choice), s1))
  {
    var e := Handle(h, choice);
    var s1 := Apply(s, e);
    var log1 := Note(log, s, e, s1);
    assert LiveAt(s, log, h);
    var q, t := s.handlers[h].request, log.ticket[h];
    match s.handlers[h].stage
    case Authorizing =>
      AuthorizedTurn(s, h, choice);
      if Stopped(s, h, choice) {
        EndsOne(log, s, s1, h);
        EndsAnswering(s, log, s1, log1, h, None, None);
      } else if !BadChannel(s, q) {
        EndsNone(log, s, s1);
        StaysAnswering(s, log, s1, log1, h, Handler(q, Calling, EMPTY), None);
      } else {
        EndsOne(log, s, s1, h);
        EndsAnswering(s, log, s1, log1, h, None, if choice.packs then Some(Response(q.id, None, Some(BAD_CHANNEL), 0)) else None);
      }
    case Calling =>
      var r := CallingTurn(s, h, choice);
      if Cut(s) {
        EndsOne(log, s, s1, h);
        EndsAnswering(s, log, s1, log1, h, None, None);
      } else if WantsSocket(choice) {
        EndsNone(log, s, s1);
        StaysAnswering(s, log, s1, log1, h, Handler(q, MakingSocket, r), Some(choice));
      } else {
        EndsOne(log, s, s1, h);
        EndsAnswering(s, log, s1, log1, h, Some(choice), if choice.packs then Some(r) else None);
      }
    case MakingSocket =>
      SocketTurn(s, h, choice);
      EndsOne(log, s, s1, h);
      EndsAnswering(s, log, s1, log1, h, None, if !Cut(s) && choice.packs then Some(s.handlers[h].response) else None);
  }

  /** A valid request that is received while the peer is up starts a handler of its own. */
  lemma RequestStarts(s: State, h: nat)
    requires Enabled(s, Receive(h)) && Asking(s, Receive(h)).Some?
    ensures var s1 := Apply(s, Receive(h));
      s1.handlers == s.handlers[h := Handler(s.inbox[0].request, Authorizing, EMPTY)] && s1.sent == s.sent
  {
  }

  lemma AskedAnswering(s: State, log: Log, h: nat)
    requires Answering(s, log) && Enabled(s, Receive(h)) && Asking(s, Receive(h)).Some?
    ensures var s1 := Apply(s, Receive(h)); Answering(s1, Note(log, s, Receive(h), s1))
  {
    var s1 := Apply(s, Receive(h));
    var log1 := Note(log, s, Receive(h), s1);
    RequestStarts(s, h);
    EndsNone(log, s, s1);
    forall i: nat ensures AnswerAt(s1, log1, i) { assert AnswerAt(s, log, i); }
    forall i: nat, j: nat ensures OnceAt(log1, i, j) { assert OnceAt(log, i, j); }
    forall g: nat ensures LiveAt(s1, log1, g) { assert LiveAt(s, log, g); }
    forall g: nat, k: nat ensures ApartAt(s1, log1, g, k) { assert ApartAt(s, log, g, k) && LiveAt(s, log, g) && LiveAt(s, log, k); }
    forall t: nat ensures CaredAt(s1, log1, t) {
      assert CaredAt(s, log, t);
      if t < |log.asked| && t !in log.ended {
        var g :| g in s.handlers && g in log.ticket && log.ticket[g] == t;
        assert g in s1.handlers && g != h;
      } else if t == |log.asked| {
        assert h in s1.handlers && log1.ticket[h] == t;
      }
    }
  }

  /** Handlers stay as they are, or end without an answer, all or some of them. */
  lemma OthersAnswering(s: State, log: Log, s1: State)
    requires Answering(s, log) && s1.sent == s.sent
    requires forall h :: h in s1.handlers ==> h in s.handlers && s1.handlers[h] == s.handlers[h]
    ensures Answering(s1, log.(ended := log.ended + Ends(log, s, s1)))
  {
    var log1 := log.(ended := log.ended + Ends(log, s, s1));
    forall t | t in Ends(log, s, s1) ensures t < |log.asked| {
      var h :| h in s.handlers && h !in s1.handlers && Ticket(log, h) == t;
      assert LiveAt(s, log, h);
    }
    forall i: nat ensures AnswerAt(s1, log1, i) { assert AnswerAt(s, log, i); }
    forall i: nat, j: nat ensures OnceAt(log1, i, j) { assert OnceAt(log, i, j); }
    forall h: nat ensures LiveAt(s1, log1, h) {
      assert LiveAt(s, log, h);
      forall k | k in s.handlers && k !in s1.handlers && h in s1.handlers ensures Ticket(log, k) != log.ticket[h] {
        assert LiveAt(s, log, k) && ApartAt(s, log, h, k);
      }
    }
    forall h: nat, k: nat ensures ApartAt(s1, log1, h, k) { assert ApartAt(s, log, h, k); }
    forall t: nat ensures CaredAt(s1, log1, t) {
      assert CaredAt(s, log, t);
      if t < |log.asked| && t !in log.ended {
        var h :| h in s.handlers && h in log.ticket && log.ticket[h] == t;
        if h !in s1.handlers { assert Ticket(log, h) in Ends(log, s, s1); }
      }
    }
  }

  /** This step starts no handler, ends none or all, and sends nothing. */
  ghost predicate AsideStep(s: State, s1: State) { s1.sent == s.sent && (s1.handlers == s.handlers || s1.handlers == map[]) }

  lemma CallAside(s: State, e: Event)
    requires Enabled(s, e) && (e.Begin? || e.Fail? || e.Send? || e.Resume? || e.Kill?)
    ensures AsideStep(s, Apply(s, e))
  {
  }

  lemma EndAside(s: State, e: Event)
    requires Enabled(s, e) && (e.Sent? || e.Lost? || e.RpcGone?)
    ensures AsideStep(s, Apply(s, e))
  {
  }

  lemma WireAside(s: State, e: Event)
    requires Enabled(s, e) && (e.Deliver? || e.PeerAnnounce? || e.PeerSend? || e.PeerClose?)
    ensures AsideStep(s, Apply(s, e))
  {
  }

  lemma ReceiveAside(s: State, h: nat)
    requires Enabled(s, Receive(h)) && Asking(s, Receive(h)).None?
    ensures AsideStep(s, Apply(s, Receive(h)))
  {
  }

  lemma AnsweringStep(s: State, log: Log, e: Event)
    requires Answering(s, log) && Enabled(s, e)
    ensures Answering(Apply(s, e), Note(log, s, e, Apply(s, e)))
  {
    if e.Handle? {
      TurnAnswering(s, log, e.h, e.choice);
    } else if e.Receive? && Asking(s, e).Some? {
      AskedAnswering(s, log, e.h);
    } else {
      if e.Begin? || e.Fail? || e.Send? || e.Resume? || e.Kill? {
        CallAside(s, e);
      } else if e.Sent? || e.Lost? || e.RpcGone? {
        EndAside(s, e);
      } else if e.Receive? {
        ReceiveAside(s, e.h);
      } else if !e.KillHandler? {
        WireAside(s, e);
      }
      OthersAnswering(s, log, Apply(s, e));
    }
  }

  lemma {:induction false} AnsweringAlways(s: State, log: Log, events: seq<Event>)
    requires Answering(s, log) && Allowed(s, events)
    ensures Answering(Run(s, events), LogOf(log, s, events))
    decreases |events|
  {
    if events != [] {
      AnsweringStep(s, log, events[0]);
      AnsweringAlways(Apply(s, events[0]), Note(log, s, events[0], Apply(s, events[0])), events[1..]);
    }
  }

  /** In every run: each response that was sent is the one right answer to one of the requests received, under its identifier; no request is answered
      twice; and the requests that are answered are exactly those whose handler ended with nothing in the way. */
  lemma EveryAnswer(events: seq<Event>)
    requires Allowed(Init(), events)
    ensures var s, log := Run(Init(), events), LogOf(NO_LOG, Init(), events);
      && |log.whose| == |s.sent|
      && (forall i :: 0 <= i < |s.sent| ==> log.whose[i] < |log.asked| && s.sent[i].id == log.asked[log.whose[i]].id)
      && (forall i :: 0 <= i < |s.sent| ==> log.whose[i] < |log.asked| && RightAnswer(log.asked[log.whose[i]], GivenTo(log, log.whose[i]), s.sent[i]))
      && (forall i, j :: 0 <= i < j < |s.sent| ==> log.whose[i] != log.whose[j])
      && (forall t :: t in log.finished <==> t in log.whose)
  {
    AnsweringAlways(Init(), NO_LOG, events);
    var s, log := Run(Init(), events), LogOf(NO_LOG, Init(), events);
    forall i | 0 <= i < |s.sent|
      ensures log.whose[i] < |log.asked| && s.sent[i].id == log.asked[log.whose[i]].id
      ensures RightAnswer(log.asked[log.whose[i]], GivenTo(log, log.whose[i]), s.sent[i])
    {
      assert AnswerAt(s, log, i);
    }
    forall i, j | 0 <= i < j < |s.sent| ensures log.whose[i] != log.whose[j] { assert OnceAt(log, i, j); }
  }

  ghost predicate InHands(s: State, log: Log, t: nat)
    requires t < |log.asked|
  {
    t !in log.whose && exists h :: h in s.handlers && s.handlers[h].request == log.asked[t]
  }

  lemma CaredInHands(s: State, log: Log, t: nat)
    requires Answering(s, log) && t < |log.asked| && t !in log.ended
    ensures InHands(s, log, t)
  {
    assert CaredAt(s, log, t);
    var h :| h in s.handlers && h in log.ticket && log.ticket[h] == t;
    assert LiveAt(s, log, h);
    assert s.handlers[h].request == log.asked[t];
  }

  /** Every request received while the peer is up is in the hands of a handler, which has not answered it yet, or its handling has ended. */
  lemma EveryRequest(events: seq<Event>, t: nat)
    requires Allowed(Init(), events) && t < |LogOf(NO_LOG, Init(), events).asked|
    ensures var s, log := Run(Init(), events), LogOf(NO_LOG, Init(), events);
      t in log.ended || InHands(s, log, t)
  {
    AnsweringAlways(Init(), NO_LOG, events);
    var s, log := Run(Init(), events), LogOf(NO_LOG, Init(), events);
    if t !in log.ended { CaredInHands(s, log, t); }
  }
}
