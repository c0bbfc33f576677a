/** One direction of a connection: what the sender queued, what is on the wire and what the receiver accepted. */
module Transport {
  import opened Wire
  import opened ChannelTree
  import opened TreeInvariant
  import opened ChannelLog
  import opened EndHistory
  import opened EndChange
  import opened EndClose

  /** The end has known q or a channel above it and that channel is closed by now: packets for q are dropped for good. */
  predicate Dead(c: Conn, q: Path) {
    (q in c.nodes && !Open(c, q)) || (q.Sub? && Dead(c, q.parent))
  }

  predicate Met(c: Conn, q: Path) {
    q in c.nodes || Dead(c, q)
  }

  /** The channel a packet is about: its own, or the one a DESTROY names. */
  function Subject(m: Msg): Path {
    if m.body.DestroyChannel? then Sub(m.path, m.body.number) else m.path
  }

  function AnnounceOf(q: Path): Msg
    requires q.Sub?
  {
    Msg(q.parent, MakeChannel(q.number))
  }

  predicate Ready(c: Conn, s: seq<Msg>, q: Path) {
    Met(c, q) || (q.Sub? && AnnounceOf(q) in s)
  }

  /** Every packet in s comes after the point where the receiver c is bound to have met the channel it is about. */
  predicate InOrder(c: Conn, s: seq<Msg>) {
    s == [] || (InOrder(c, s[..|s| - 1]) && Ready(c, s[..|s| - 1], Subject(s[|s| - 1])))
  }

  function Stream(src: End, link: seq<Msg>): seq<Msg> { link + src.conn.queue }

  function Pipe(src: End, link: seq<Msg>, dst: End): seq<Msg> { dst.accepted + Stream(src, link) }

  /** Channel p: what was accepted, then what is under way, is a prefix of what was emitted, and all of it while the sender's p is open. */
  ghost predicate Carried(src: End, link: seq<Msg>, dst: End, p: Path) {
    && Log(p, dst.accepted) <= Log(p, src.emitted)
    && (!Dead(dst.conn, p) ==>
          && Log(p, Pipe(src, link, dst)) <= Log(p, src.emitted)
          && (Open(src.conn, p) || p !in src.conn.nodes ==> Log(p, Pipe(src, link, dst)) == Log(p, src.emitted)))
  }

  ghost predicate Announcing(src: End, link: seq<Msg>, dst: End, q: Path) {
    Open(src.conn, q) ==> Ready(dst.conn, Stream(src, link), q)
  }

  ghost predicate Direction(src: End, link: seq<Msg>, dst: End) {
    && (forall p :: Carried(src, link, dst, p))
    && (forall q :: Announcing(src, link, dst, q))
    && InOrder(dst.conn, Stream(src, link))
  }

  // ---- Receivers only learn ----

  ghost predicate Grows(c: Conn, c1: Conn) {
    forall q :: q in c.nodes ==> q in c1.nodes && (Open(c1, q) ==> Open(c, q))
  }

  lemma MetGrows(c: Conn, c1: Conn, q: Path)
    requires Grows(c, c1)
    ensures Dead(c, q) ==> Dead(c1, q)
    ensures Met(c, q) ==> Met(c1, q)
  {
    if q.Sub? {
      MetGrows(c, c1, q.parent);
    }
  }

  lemma {:induction false} InOrderGrows(c: Conn, c1: Conn, s: seq<Msg>)
    requires Grows(c, c1) && InOrder(c, s)
    ensures InOrder(c1, s)
  {
    if s != [] {
      InOrderGrows(c, c1, s[..|s| - 1]);
      MetGrows(c, c1, Subject(s[|s| - 1]));
    }
  }

  lemma OpenIsNotDead(c: Conn, q: Path)
    requires OpenShape(c) && Open(c, q)
    ensures !Dead(c, q)
  {
    if q.Sub? {
      assert q == Sub(q.parent, q.number);
      OpenIsNotDead(c, q.parent);
    }
  }

  lemma InOrderSnoc(c: Conn, s: seq<Msg>, m: Msg)
    requires InOrder(c, s) && Ready(c, s, Subject(m))
    ensures InOrder(c, s + [m])
  {
    assert (s + [m])[..|s|] == s;
  }

  /** A purge takes announcements out only together with everything they announce. */
  lemma ReadyPurge(c: Conn, link: seq<Msg>, s: seq<Msg>, q: Path, m: Msg)
    requires Ready(c, link + s, Subject(m)) && !Under(m.path, q)
    ensures Ready(c, link + Purge(s, q), Subject(m))
  {
    PurgeSelects(s, q);
  }

  lemma {:induction false} InOrderPurge(c: Conn, link: seq<Msg>, s: seq<Msg>, q: Path)
    requires InOrder(c, link + s)
    ensures InOrder(c, link + Purge(s, q))
  {
    if s == [] {
    } else {
      var n := |s| - 1;
      assert (link + s)[..|link + s| - 1] == link + s[..n];
      InOrderPurge(c, link, s[..n], q);
      if !Under(s[n].path, q) {
        ReadyPurge(c, link, s[..n], q, s[n]);
        InOrderSnoc(c, link + Purge(s[..n], q), s[n]);
        assert link + Purge(s, q) == link + Purge(s[..n], q) + [s[n]];
      } else {
        assert Purge(s, q) == Purge(s[..n], q);
      }
    }
  }

  lemma {:induction false} InOrderPrefix(c: Conn, s: seq<Msg>, t: seq<Msg>)
    requires InOrder(c, s + t)
    ensures InOrder(c, s)
  {
    if t == [] {
      assert s + t == s;
    } else {
      assert (s + t)[..|s + t| - 1] == s + t[..|t| - 1];
      InOrderPrefix(c, s, t[..|t| - 1]);
    }
  }

  lemma {:induction false} InOrderPop(c: Conn, c1: Conn, m: Msg, s: seq<Msg>)
    requires InOrder(c, [m] + s) && Grows(c, c1)
    requires m.body.MakeChannel? ==> Met(c1, Sub(m.path, m.body.number))
    ensures InOrder(c1, s)
  {
    if s != [] {
      var n := |s| - 1;
      assert ([m] + s)[..|s|] == [m] + s[..n];
      InOrderPop(c, c1, m, s[..n]);
      ReadyPop(c, c1, m, s[..n], Subject(s[n]));
    }
  }

  lemma ReadyPop(c: Conn, c1: Conn, m: Msg, s: seq<Msg>, q: Path)
    requires Ready(c, [m] + s, q) && Grows(c, c1)
    requires m.body.MakeChannel? ==> Met(c1, Sub(m.path, m.body.number))
    ensures Ready(c1, s, q)
  {
    MetGrows(c, c1, q);
  }

  lemma HeadMet(c: Conn, m: Msg, s: seq<Msg>)
    requires InOrder(c, [m] + s)
    ensures Met(c, Subject(m))
  {
    InOrderPrefix(c, [m], s);
    assert [m][..0] == [];
  }

  /** A packet at the head of the stream is about a channel the receiver knows, or it is for a channel that was closed here. */
  lemma HeadPathMet(c: Conn, m: Msg, s: seq<Msg>)
    requires InOrder(c, [m] + s) && TreeShape(c)
    ensures Met(c, m.path)
  {
    HeadMet(c, m, s);
  }

  // ---- The receiving end moves ----

  lemma ReceiverGrows(src: End, link: seq<Msg>, dst: End, dst1: End)
    requires Direction(src, link, dst) && Grows(dst.conn, dst1.conn) && dst1.accepted == dst.accepted
    ensures Direction(src, link, dst1)
  {
    InOrderGrows(dst.conn, dst1.conn, Stream(src, link));
    forall p ensures Carried(src, link, dst1, p) {
      assert Carried(src, link, dst, p);
      MetGrows(dst.conn, dst1.conn, p);
    }
    forall q ensures Announcing(src, link, dst1, q) {
      assert Announcing(src, link, dst, q);
      MetGrows(dst.conn, dst1.conn, q);
    }
  }

  lemma PopCarried(src: End, link: seq<Msg>, dst: End, dst1: End, p: Path)
    requires link != [] && Carried(src, link, dst, p) && Grows(dst.conn, dst1.conn)
    requires if Open(dst.conn, link[0].path) then dst1.accepted == dst.accepted + [link[0]] && !Dead(dst.conn, link[0].path)
             else dst1.accepted == dst.accepted && Dead(dst.conn, link[0].path)
    ensures Carried(src, link[1..], dst1, p)
  {
    var m := link[0];
    MetGrows(dst.conn, dst1.conn, p);
    var rest := Stream(src, link[1..]);
    assert Pipe(src, link, dst) == dst.accepted + [m] + rest;
    LogSnoc(p, dst.accepted, m);
    LogConcat(p, dst.accepted + [m], rest);
    LogConcat(p, dst.accepted, rest);
  }

  lemma Pop(src: End, link: seq<Msg>, dst: End, dst1: End)
    requires Direction(src, link, dst) && link != [] && Grows(dst.conn, dst1.conn)
    requires TreeShape(dst.conn) && OpenShape(dst.conn)
    requires dst1.accepted == if Open(dst.conn, link[0].path) then dst.accepted + [link[0]] else dst.accepted
    requires link[0].body.MakeChannel? && Open(dst.conn, link[0].path) ==> Sub(link[0].path, link[0].body.number) in dst1.conn.nodes
    ensures Direction(src, link[1..], dst1)
  {
    var m := link[0];
    var rest := Stream(src, link[1..]);
    assert Stream(src, link) == [m] + rest;
    HeadPathMet(dst.conn, m, rest);
    if Open(dst.conn, m.path) { OpenIsNotDead(dst.conn, m.path); }
    forall p ensures Carried(src, link[1..], dst1, p) {
      PopCarried(src, link, dst, dst1, p);
    }
    MetGrows(dst.conn, dst1.conn, m.path);
    InOrderPop(dst.conn, dst1.conn, m, rest);
    forall q ensures Announcing(src, link[1..], dst1, q) {
      assert Announcing(src, link, dst, q);
      if Open(src.conn, q) { ReadyPop(dst.conn, dst1.conn, m, rest, q); }
    }
  }

  // ---- The sending end moves ----

  /** src1 queues the packets ms (at most one) and, if q is given, purges what lies at or below q; channels it still has open were open
      before, or are new. */
  ghost predicate Sends(src: End, src1: End, ms: seq<Msg>) {
    && |ms| <= 1 && (forall m :: m in ms ==> Open(src.conn, m.path))
    && src1.emitted == src.emitted + ms
    && (forall p :: Open(src1.conn, p) ==> Open(src.conn, p) || p !in src.conn.nodes)
    && (forall p :: p in src.conn.nodes ==> p in src1.conn.nodes)
  }

  lemma PipeLog(src: End, link: seq<Msg>, dst: End, p: Path)
    ensures Log(p, Pipe(src, link, dst)) == Log(p, dst.accepted) + Log(p, link) + Log(p, src.conn.queue)
  {
    LogConcat(p, dst.accepted, Stream(src, link));
    LogConcat(p, link, src.conn.queue);
    assert Log(p, dst.accepted) + (Log(p, link) + Log(p, src.conn.queue))
        == Log(p, dst.accepted) + Log(p, link) + Log(p, src.conn.queue);
  }

  /** A pipe `before + queue` that is a prefix of what was emitted, when ms is emitted and part of the queue is purged. */
  lemma PrefixStep(before: seq<Body>, queue: seq<Body>, queue1: seq<Body>, ms: seq<Body>, emitted: seq<Body>)
    requires before + queue <= emitted && queue1 <= queue + ms
    requires ms == [] || before + queue == emitted
    ensures before + queue1 <= emitted + ms
    ensures before + queue == emitted && queue1 == queue + ms ==> before + queue1 == emitted + ms
  {
    assert before + (queue + ms) == (before + queue) + ms;
    assert queue + ms == queue1 + (queue + ms)[|queue1|..];
    assert before + (queue + ms) == (before + queue1) + (queue + ms)[|queue1|..];
  }

  lemma LogOfOne(p: Path, ms: seq<Msg>)
    requires |ms| <= 1 && (ms == [] || ms[0].path != p)
    ensures Log(p, ms) == []
  {
    if ms != [] {
      assert ms == [] + [ms[0]];
      LogSnoc(p, [], ms[0]);
    }
  }

  lemma SendCarried(src: End, src1: End, link: seq<Msg>, dst: End, ms: seq<Msg>, p: Path)
    requires Carried(src, link, dst, p) && Sends(src, src1, ms)
    requires Log(p, src1.conn.queue) <= Log(p, src.conn.queue + ms)
    requires Open(src1.conn, p) || p !in src1.conn.nodes ==> Log(p, src1.conn.queue) == Log(p, src.conn.queue + ms)
    ensures Carried(src1, link, dst, p)
  {
    LogConcat(p, src.emitted, ms);
    if !Dead(dst.conn, p) {
      SendLiving(src, src1, link, dst, ms, p);
    }
  }

  lemma SendLiving(src: End, src1: End, link: seq<Msg>, dst: End, ms: seq<Msg>, p: Path)
    requires Carried(src, link, dst, p) && Sends(src, src1, ms) && !Dead(dst.conn, p)
    requires Log(p, src1.conn.queue) <= Log(p, src.conn.queue + ms)
    ensures Log(p, Pipe(src1, link, dst)) <= Log(p, src1.emitted)
    ensures (Open(src.conn, p) || p !in src.conn.nodes) && Log(p, src1.conn.queue) == Log(p, src.conn.queue + ms) ==>
              Log(p, Pipe(src1, link, dst)) == Log(p, src1.emitted)
  {
    LogConcat(p, src.emitted, ms);
    LogConcat(p, src.conn.queue, ms);
    PipeLog(src, link, dst, p);
    PipeLog(src1, link, dst, p);
    if ms == [] || ms[0].path != p {
      LogOfOne(p, ms);
    } else {
      assert ms[0] in ms;
    }
    PrefixStep(Log(p, dst.accepted) + Log(p, link), Log(p, src.conn.queue), Log(p, src1.conn.queue), Log(p, ms), Log(p, src.emitted));
  }

  /** The queue only grows by ms. */
  lemma SendPlain(src: End, src1: End, link: seq<Msg>, dst: End, ms: seq<Msg>)
    requires Direction(src, link, dst) && Sends(src, src1, ms)
    requires src1.conn.queue == src.conn.queue + ms
    requires forall m :: m in ms ==> Ready(dst.conn, Stream(src, link), Subject(m))
    requires forall q :: Open(src1.conn, q) && !Open(src.conn, q) ==> Ready(dst.conn, Stream(src1, link), q)
    ensures Direction(src1, link, dst)
  {
    forall p ensures Carried(src1, link, dst, p) {
      assert Carried(src, link, dst, p);
      SendCarried(src, src1, link, dst, ms, p);
    }
    assert Stream(src1, link) == Stream(src, link) + ms;
    if ms != [] {
      assert ms == [ms[0]] && ms[0] in ms;
      InOrderSnoc(dst.conn, Stream(src, link), ms[0]);
    } else {
      assert Stream(src1, link) == Stream(src, link);
    }
    forall q ensures Announcing(src1, link, dst, q) {
      assert Announcing(src, link, dst, q);
    }
  }

  /** The channel q goes: its DESTROY may be queued, then everything at or below q is purged. */
  lemma SendPurge(src: End, src1: End, link: seq<Msg>, dst: End, ms: seq<Msg>, q: Path)
    requires Direction(src, link, dst) && Sends(src, src1, ms)
    requires src1.conn.queue == Purge(src.conn.queue + ms, q)
    requires forall p :: Open(src1.conn, p) ==> Open(src.conn, p) && !Under(p, q)
    requires forall p :: Under(p, q) && p !in src1.conn.nodes ==> Log(p, src.emitted) == [] && Log(p, ms) == []
    requires forall m :: m in ms ==> Ready(dst.conn, Stream(src, link), Subject(m))
    ensures Direction(src1, link, dst)
  {
    forall p ensures Carried(src1, link, dst, p) {
      assert Carried(src, link, dst, p);
      PurgeCarried(src, src1, link, dst, ms, q, p);
    }
    PurgeInOrder(src, link, dst, ms, q);
    forall p ensures Announcing(src1, link, dst, p) {
      assert Announcing(src, link, dst, p);
      if Open(src1.conn, p) {
        PurgeAnnouncing(src.conn.queue, link, dst, ms, q, p);
      }
    }
  }

  lemma PurgeInOrder(src: End, link: seq<Msg>, dst: End, ms: seq<Msg>, q: Path)
    requires InOrder(dst.conn, Stream(src, link)) && |ms| <= 1
    requires forall m :: m in ms ==> Ready(dst.conn, Stream(src, link), Subject(m))
    ensures InOrder(dst.conn, link + Purge(src.conn.queue + ms, q))
  {
    assert link + (src.conn.queue + ms) == Stream(src, link) + ms;
    if ms != [] {
      assert ms == [ms[0]] && ms[0] in ms;
      InOrderSnoc(dst.conn, Stream(src, link), ms[0]);
    } else {
      assert Stream(src, link) + ms == Stream(src, link);
    }
    InOrderPurge(dst.conn, link, src.conn.queue + ms, q);
  }

  lemma PurgeAnnouncing(queue: seq<Msg>, link: seq<Msg>, dst: End, ms: seq<Msg>, q: Path, p: Path)
    requires Ready(dst.conn, link + queue, p) && !Under(p, q)
    ensures Ready(dst.conn, link + Purge(queue + ms, q), p)
  {
    PurgeSelects(queue + ms, q);
    if p.Sub? {
      assert !Under(p.parent, q);
    }
  }

  lemma PurgeCarried(src: End, src1: End, link: seq<Msg>, dst: End, ms: seq<Msg>, q: Path, p: Path)
    requires Carried(src, link, dst, p) && Sends(src, src1, ms)
    requires src1.conn.queue == Purge(src.conn.queue + ms, q)
    requires Open(src1.conn, p) ==> !Under(p, q)
    requires Under(p, q) && p !in src1.conn.nodes ==> Log(p, src.emitted) == [] && Log(p, ms) == []
    ensures Carried(src1, link, dst, p)
  {
    LogPurge(p, src.conn.queue + ms, q);
    if Under(p, q) && p !in src1.conn.nodes {
      LogConcat(p, src.emitted, ms);
      LogConcat(p, dst.accepted, Stream(src, link));
      LogConcat(p, dst.accepted, Stream(src1, link));
      LogConcat(p, link, src.conn.queue);
      LogConcat(p, link, src1.conn.queue);
    } else {
      SendCarried(src, src1, link, dst, ms, p);
    }
  }

  /** The socket channel of the sender is closed and its queue drained. */
  lemma SendNothing(src: End, src1: End, link: seq<Msg>, dst: End)
    requires Direction(src, link, dst) && LogsKnown(src)
    requires src1.emitted == src.emitted && src1.conn.queue == [] && src1.conn.nodes.Keys == src.conn.nodes.Keys
    requires forall p :: !Open(src1.conn, p)
    ensures Direction(src1, link, dst)
  {
    forall p ensures Carried(src1, link, dst, p) {
      assert Carried(src, link, dst, p);
      assert src.emitted + [] == src.emitted;
      LogConcat(p, dst.accepted, Stream(src, link));
      LogConcat(p, dst.accepted, Stream(src1, link));
      LogConcat(p, link, src.conn.queue);
      LogConcat(p, link, src1.conn.queue);
      if p !in src.conn.nodes { assert Log(p, src.emitted) == []; }
    }
    assert Stream(src1, link) == link;
    InOrderPrefix(dst.conn, link, src.conn.queue);
    forall q ensures Announcing(src1, link, dst, q) {
    }
  }

  /** The head of the sending queue goes on the wire. */
  lemma Transmit(src: End, src1: End, link: seq<Msg>, dst: End)
    requires Direction(src, link, dst) && src.conn.queue != []
    requires src1 == src.(conn := src.conn.(queue := src.conn.queue[1..]))
    ensures Direction(src1, link + [src.conn.queue[0]], dst)
  {
    var link1 := link + [src.conn.queue[0]];
    assert Stream(src1, link1) == Stream(src, link);
    forall p ensures Carried(src1, link1, dst, p) {
      assert Carried(src, link, dst, p);
    }
    forall q ensures Announcing(src1, link1, dst, q) {
      assert Announcing(src, link, dst, q);
    }
  }
}
