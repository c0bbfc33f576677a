/** Requests and responses as lists: the place of each field, and exactly which lists the other side takes. */
module PacketForms {
  import opened Wire
  import opened Serialization

  predicate IsNumber(v: Value, n: nat) { v == Number(n) || v == Float(n as real) || (n == 0 && v == Flag(false)) || (n == 1 && v == Flag(true)) }

  predicate IsId(v: Value) { v.Binary? && 1 <= |v.bytes| <= 64 }

  /** The lists that are requests. */
  predicate RequestForm(d: seq<Value>) {
    && 8 <= |d| <= 9 && IsNumber(d[0], 1)
    && IsId(d[1])
    && d[2].Text? && 1 <= |d[2].text| <= 1024
    && (d[3].Nothing? || d[3].Tuple? || d[3].List?)
    && (d[4].Nothing? || d[4].Dict?)
    && (d[5].Nothing? || d[5].Dict?)
    && (d[6].Nothing? || d[6].Number? || d[6].Flag? || d[6] == Float(0.0))
    && (d[7].Nothing? || d[7].Binary? || d[7].Text?)
    && (|d| == 9 ==> d[8].Flag?)
  }

  /** The lists that are responses; `true` and `false` are integers. */
  predicate ResponseForm(d: seq<Value>) {
    && |d| == 6 && IsNumber(d[0], 2)
    && IsId(d[1])
    && (d[3].Nothing? || (d[3].Object? && d[3].sid == "RpcRemoteException"))
    && (d[4].Flag? || (d[4].Number? && d[4].number >= 0))
    && d[5].Binary?
  }

  /** Exactly these lists are received, each field from its own place; every other list, and everything that is no list, is rejected. */
  lemma ReceivedForms(codec: Codec, reg: Registry, w: Value)
    ensures var v := Unpack(codec, reg, w);
      UnpackPacket(codec, reg, w) ==
        if v.None? || !v.value.List? then None
        else
          var d := v.value.list;
          if RequestForm(d) then Some(Ask(Request(d[1], d[2], d[3], d[4], d[5], d[6], d[7], if |d| == 9 then d[8] else Flag(false))))
          else if ResponseForm(d) then Some(Answer(Response(d[1], d[2], d[3], d[4], d[5])))
          else None
  {
  }

  /** The place of each field in what is sent; the identifier is sent as bytes. */
  lemma SentForms(codec: Codec, reg: Registry, utf8: string -> Bytes, r: Request, a: Response, version: nat, id: Bytes)
    ensures r.id == Binary(id) || (r.id.Text? && utf8(r.id.text) == id) ==>
      var fields := [Number(1), Binary(id), r.methodName, r.args, r.kwargs, r.header, r.channel, r.rawSocket];
      r.rawSocket.Binary? ==> PackRequest(codec, reg, utf8, r, version) == Pack(codec, reg, List(if version >= 2 then fields + [r.oneWay] else fields))
    ensures a.id == Binary(id) || (a.id.Text? && utf8(a.id.text) == id) ==>
      (a.rawSocket.Binary? ==>
         PackResponse(codec, reg, utf8, a) == Pack(codec, reg, List([Number(2), Binary(id), a.result, a.exception, a.channel, a.rawSocket])))
  {
    var fields := [Number(1), Binary(id), r.methodName, r.args, r.kwargs, r.header, r.channel, r.rawSocket];
    assert fields + [] == fields;
  }

  /** What the sender's own fields must be for a request to be taken. */
  predicate Takeable(r: Request, id: Value, version: nat) {
    && IsId(id) && r.methodName.Text? && 1 <= |r.methodName.text| <= 1024
    && (r.args.Nothing? || r.args.Tuple? || r.args.List?)
    && (r.kwargs.Nothing? || r.kwargs.Dict?) && (r.header.Nothing? || r.header.Dict?)
    && (r.channel.Nothing? || r.channel.Number? || r.channel.Flag? || r.channel == Float(0.0))
    && (version >= 2 ==> r.oneWay.Flag?)
  }

  /** A request that can be saved arrives as it was sent exactly when its own fields are in order, and is rejected otherwise. */
  lemma RequestArrives(codec: Codec, reg: Registry, utf8: string -> Bytes, r: Request, version: nat, id: Value)
    requires IdBytes(r.id, utf8) == Some(id) && r.rawSocket.Binary?
    requires forall i :: 0 <= i < |RequestList(id, r, version)| ==> Savable(reg, RequestList(id, r, version)[i])
    ensures var w := PackRequest(codec, reg, utf8, r, version);
      w.Some? && UnpackPacket(codec, reg, w.value) == if Takeable(r, id, version) then Some(Ask(Received(r, id, version))) else None
  {
    RequestRoundTrip(codec, reg, utf8, r, version, id);
  }
}
