/** The peer object: its methods, cut where control can pass to another coroutine, take exactly the steps of the RPC machine. */
module RpcPeerObject {
  import opened Wire
  import opened RpcPeer

  class PeerPrivate {
    var broken: bool
    var rpcAlive: bool
    var waiters: map<Id, nat>
    var calls: map<nat, Call>
    var handlers: map<nat, Handler>
    var pending: set<nat>
    var inbox: seq<Packet>
    var sent: seq<Response>
    ghost var wire: seq<Item>
    ghost var owed: set<nat>
    ghost var announced: set<nat>
    ghost var answered: set<Id>
    ghost var heard: set<Id>
    ghost var received: set<Response>
    ghost var brought: set<nat>
    ghost var handled: set<nat>

    ghost function Now(): State
      reads this
    {
      State(broken, rpcAlive, waiters, calls, handlers, pending, wire, inbox, owed, announced, answered, heard, received, brought, handled, sent)
    }

    constructor ()
      ensures Now() == Init()
    {
      broken, rpcAlive, waiters, calls, handlers, pending, inbox, sent := false, true, map[], map[], map[], {}, [], [];
      wire, owed, announced, answered, heard, received, brought, handled := [], {}, {}, {}, {}, {}, {}, {};
    }

    /** ValueEvent::send on the waiter of a call */
    method SendValue(c: nat, r: Response)
      requires c in calls
      modifies this`calls, this`handled
      ensures Now() == WakeCall(old(Now()), c, r)
    {
      handled := WakeCall(Now(), c, r).handled;
      calls := calls[c := calls[c].(slot := Some(r))];
    }

    /** takeChannel */
    method TakeChannel(n: nat) returns (ok: bool)
      modifies this`pending
      ensures ok == (n in old(pending)) && pending == old(pending) - {n}
    {
      ok := n in pending;
      pending := pending - {n};
    }

    /** Every waiter of the table belongs to a call. */
    ghost predicate Table()
      reads this
    {
      forall id :: id in waiters ==> waiters[id] in calls && calls[waiters[id]].id == id
    }

    /** The loop of shutdown, over the waiters in the order of the table, whatever it is. */
    method WakeAll()
      requires Table()
      modifies this`calls
      ensures calls == AllWoken(old(Now()))
    {
      var ids := waiters.Keys;
      while ids != {}
        invariant ids <= waiters.Keys && calls.Keys == old(calls).Keys
        invariant forall c :: c in calls ==>
          calls[c] == if InTable(old(Now()), c) && old(calls)[c].id !in ids then old(calls)[c].(slot := Some(EMPTY)) else old(calls)[c]
        decreases |ids|
      {
        var id :| id in ids;
        ids := ids - {id};
        calls := calls[waiters[id] := calls[waiters[id]].(slot := Some(EMPTY))];
      }
    }

    method Shutdown()
      requires Table()
      modifies this
      ensures Now() == RpcPeer.Shutdown(old(Now()))
    {
      if broken { return; }
      WakeAll();
      broken := true;
      waiters := map[];
      handlers := map[];
      pending := {};
    }

    method EndCall(c: nat, outcome: Outcome)
      requires c in calls
      modifies this`calls, this`handled
      ensures Now() == FailCall(old(Now()), c, outcome)
    {
      handled := Done(Now(), SlotNumber(calls[c])).handled;
      calls := calls[c := calls[c].(phase := Ended(outcome))];
    }

    /** The part of call() before anything is sent. */
    method BeginCall(c: nat, id: Id)
      modifies this`calls
      ensures Now() == RpcPeer.BeginCall(old(Now()), c, id)
    {
      if broken || !rpcAlive {
        calls := calls[c := Call(id, Ended(Disconnected), None)];
        return;
      }
      calls := calls[c := Call(id, Preparing, None)];
    }

    /** The waiter goes into the table first, then the request is sent. */
    method SendRequest(c: nat)
      requires c in calls
      modifies this`calls, this`waiters, this`handled
      ensures Now() == SendCall(old(Now()), c)
    {
      if broken || !rpcAlive {
        EndCall(c, Disconnected);
        return;
      }
      waiters := waiters[calls[c].id := c];
      calls := calls[c := calls[c].(phase := Sending)];
    }

    method RequestSent(c: nat, success: bool)
      requires c in calls && Table()
      modifies this
      ensures Now() == SentCall(old(Now()), c, success)
    {
      if !success {
        Shutdown();
        EndCall(c, Disconnected);
        return;
      }
      if broken || !rpcAlive {
        EndCall(c, Disconnected);
        return;
      }
      calls := calls[c := calls[c].(phase := Waiting)];
    }

    method RemoveWaiter(c: nat)
      requires c in calls
      modifies this`waiters
      ensures Now() == LeaveTable(old(Now()), c)
    {
      waiters := map id | id in waiters && id != calls[c].id :: waiters[id];
    }

    /** The rest of call(), from the moment its waiter was set. */
    method FinishCall(c: nat)
      requires c in calls && calls[c].slot.Some?
      modifies this`calls, this`waiters, this`pending, this`handled
      ensures Now() == ResumeCall(old(Now()), c)
    {
      var response := calls[c].slot.value;
      RemoveWaiter(c);
      if response.id == "" || broken || !rpcAlive {
        EndCall(c, Disconnected);
        return;
      }
      if response.exception.Some? {
        EndCall(c, RemoteError);
        return;
      }
      if response.result.Some? && response.result.value.stream {
        if response.channel == 0 {
          EndCall(c, Internal);
          return;
        }
        var taken := TakeChannel(response.channel);
        if !taken {
          EndCall(c, RemoteError);
          return;
        }
      } else if response.channel != 0 {
        var _ := TakeChannel(response.channel);
      }
      EndCall(c, Returned(response.result));
    }

    /** A coroutine that calls is killed where it blocks; only the wait for the event cleans up. */
    method CallKilled(c: nat)
      requires c in calls
      modifies this`calls, this`waiters, this`handled
      ensures Now() == KillCall(old(Now()), c)
    {
      if calls[c].phase.Waiting? { RemoveWaiter(c); }
      EndCall(c, Killed);
    }

    /** The sub-channel that a packet names is taken out of the pending queue and dropped. */
    method ClaimAndDrop(n: nat)
      modifies this`pending, this`handled
      ensures Now() == Drop(old(Now()), n)
    {
      if n != 0 { var _ := TakeChannel(n); }
      handled := Done(Now(), n).handled;
    }

    /** A response goes to its waiter; without one its sub-channel is claimed and dropped. */
    method HandleResponse(response: Response)
      requires Table() && ResponseOk(response)
      modifies this`calls, this`pending, this`received, this`heard, this`handled
      ensures Now() == Dispatch(old(Now()), Answer(response), 0)
    {
      received, heard := received + {response}, heard + {response.id};
      if response.id !in waiters {
        ClaimAndDrop(response.channel);
      } else {
        SendValue(waiters[response.id], response);
      }
    }

    method DispatchPacket(packet: Packet, h: nat)
      requires Table()
      modifies this`calls, this`pending, this`received, this`heard, this`handlers, this`handled
      ensures Now() == Dispatch(old(Now()), packet, h)
    {
      if packet.Ask? && RequestOk(packet.request) {
        handlers := handlers[h := Handler(packet.request, Authorizing, EMPTY)];
      } else if packet.Answer? && ResponseOk(packet.response) {
        HandleResponse(packet.response);
      } else {
        ClaimAndDrop(NumberIn(packet));
      }
    }

    /** One turn of the loop of handlePacket; h names the coroutine of a new request. */
    method HandlePacket(h: nat)
      requires inbox != [] && Table()
      modifies this
      ensures Now() == ReceivePacket(old(Now()), h)
    {
      var packet := inbox[0];
      inbox := inbox[1..];
      if broken || !rpcAlive {
        Shutdown();
      } else {
        DispatchPacket(packet, h);
      }
    }

    /** Leaving handleRequest: the cleaner claims what was not claimed. */
    method LeaveHandler(h: nat)
      requires h in handlers
      modifies this`handlers, this`pending, this`handled
      ensures Now() == EndHandler(old(Now()), h)
    {
      var n := handlers[h].request.channel;
      handlers := map k | k in handlers && k != h :: handlers[k];
      ClaimAndDrop(n);
    }

    method PackAndSend(h: nat, r: Response, packs: bool)
      requires h in handlers
      modifies this`handlers, this`pending, this`sent, this`handled
      ensures Now() == Reply(old(Now()), h, r, packs)
    {
      var response := r;
      if response.exception.Some? { response := response.(result := None); }
      if packs { sent := sent + [response]; }
      LeaveHandler(h);
    }

    /** From the outcome of the method to the response. */
    method Respond(h: nat, r: Response, choice: Choice)
      requires h in handlers
      modifies this`handlers, this`pending, this`sent, this`handled
      ensures Now() == BuildReply(old(Now()), h, r, choice)
    {
      var response := r;
      if response.exception.None? && response.result.Some? && response.result.value.stream {
        var number := choice.number;
        if broken || !rpcAlive {
          LeaveHandler(h);
          return;
        }
        if number == 0 {
          response := response.(exception := Some(BAD_CHANNEL));
        } else {
          response := response.(channel := number);
          if choice.raw {
            handlers := handlers[h := Handler(handlers[h].request, MakingSocket, response)];
            return;
          }
        }
      }
      PackAndSend(h, response, choice.packs);
    }

    /** handleRequest, from one switch to the next. */
    method HandleRequest(h: nat, choice: Choice)
      requires h in handlers
      modifies this`handlers, this`pending, this`sent, this`handled
      ensures Now() == HandlerGo(old(Now()), h, choice)
    {
      var request := handlers[h].request;
      if broken || !rpcAlive || (handlers[h].stage.Authorizing? && !choice.auth) {
        LeaveHandler(h);
        return;
      }
      match handlers[h].stage
      case Authorizing =>
        var response := Response(request.id, None, None, 0);
        if request.stream {
          if request.channel == 0 {
            response := response.(exception := Some(BAD_CHANNEL));
          } else {
            var taken := TakeChannel(request.channel);
            if !taken { response := response.(exception := Some(BAD_CHANNEL)); }
          }
        } else if request.channel != 0 {
          var _ := TakeChannel(request.channel);
        }
        if response.exception.Some? {
          Respond(h, response, choice);
        } else {
          handlers := handlers[h := Handler(request, Calling, EMPTY)];
        }
      case Calling =>
        var response := Response(request.id, None, None, 0);
        if choice.exception.Some? {
          response := response.(exception := choice.exception);
        } else {
          response := response.(result := choice.result);
        }
        Respond(h, response, choice);
      case MakingSocket =>
        PackAndSend(h, handlers[h].response, choice.packs);
    }
  }
}
