/** What a sequence of packets means to one channel: its log, the data in it, and the gate its flow commands leave. */
module ChannelLog {
  import opened Wire
  import opened ChannelTree
  import opened TreeInvariant

  /** The bodies in s that belong to channel p, in order. */
  function Log(p: Path, s: seq<Msg>): seq<Body> {
    if s == [] then []
    else
      var m := s[|s| - 1];
      Log(p, s[..|s| - 1]) + if m.path == p then [m.body] else []
  }

  function Datas(l: seq<Body>): seq<Bytes> {
    if l == [] then []
    else
      var b := l[|l| - 1];
      Datas(l[..|l| - 1]) + if b.Data? then [b.payload] else []
  }

  predicate IsFlow(b: Body) { b.SlowDown? || b.GoThrough? }

  /** The state of a sender's gate after a log: shut exactly when the last flow command in it is SLOW_DOWN. */
  predicate Gate(l: seq<Body>) {
    if l == [] then true
    else
      var b := l[|l| - 1];
      if IsFlow(b) then b.GoThrough? else Gate(l[..|l| - 1])
  }

  /** SLOW_DOWN, GO_THROUGH, SLOW_DOWN, ... with other packets anywhere between them. */
  predicate Alternating(l: seq<Body>) {
    if l == [] then true
    else
      var b := l[|l| - 1];
      && Alternating(l[..|l| - 1])
      && (b.SlowDown? ==> Gate(l[..|l| - 1]))
      && (b.GoThrough? ==> !Gate(l[..|l| - 1]))
  }

  lemma LogSnoc(p: Path, s: seq<Msg>, m: Msg)
    ensures Log(p, s + [m]) == if m.path == p then Log(p, s) + [m.body] else Log(p, s)
  {
    assert (s + [m])[..|s|] == s;
  }

  lemma BodySnoc(l: seq<Body>, b: Body)
    ensures Datas(l + [b]) == if b.Data? then Datas(l) + [b.payload] else Datas(l)
    ensures Gate(l + [b]) == if IsFlow(b) then b.GoThrough? else Gate(l)
    ensures Alternating(l + [b]) ==
            (Alternating(l) && (b.SlowDown? ==> Gate(l)) && (b.GoThrough? ==> !Gate(l)))
  {
    assert (l + [b])[..|l|] == l;
  }

  lemma {:induction false} LogConcat(p: Path, s: seq<Msg>, t: seq<Msg>)
    ensures Log(p, s + t) == Log(p, s) + Log(p, t)
  {
    if t == [] {
      assert s + t == s;
    } else {
      var n := |t| - 1;
      LogConcat(p, s, t[..n]);
      assert (s + t)[..|s| + n] == s + t[..n];
    }
  }

  lemma {:induction false} LogPurge(p: Path, s: seq<Msg>, q: Path)
    ensures Log(p, Purge(s, q)) == if Under(p, q) then [] else Log(p, s)
  {
    if s != [] {
      var n := |s| - 1;
      LogPurge(p, s[..n], q);
      if !Under(s[n].path, q) {
        LogSnoc(p, Purge(s[..n], q), s[n]);
      } else {
        assert Purge(s[..n], q) + [] == Purge(s[..n], q);
      }
    }
  }

  lemma {:induction false} InLog(p: Path, b: Body, s: seq<Msg>)
    ensures b in Log(p, s) <==> Msg(p, b) in s
  {
    if s != [] {
      var n := |s| - 1;
      InLog(p, b, s[..n]);
      assert s == s[..n] + [s[n]];
    }
  }

  lemma {:induction false} DatasConcat(l: seq<Body>, k: seq<Body>)
    ensures Datas(l + k) == Datas(l) + Datas(k)
  {
    if k == [] {
      assert l + k == l;
    } else {
      var n := |k| - 1;
      DatasConcat(l, k[..n]);
      assert (l + k)[..|l| + n] == l + k[..n];
    }
  }

  lemma DatasPrefix(l: seq<Body>, k: seq<Body>)
    requires l <= k
    ensures Datas(l) <= Datas(k)
  {
    assert k == l + k[|l|..];
    DatasConcat(l, k[|l|..]);
  }

  /** Packets that are not flow commands leave the gate alone. */
  lemma {:induction false} GateStays(l: seq<Body>, k: seq<Body>)
    requires forall b :: b in k ==> !IsFlow(b)
    ensures Gate(l + k) == Gate(l)
  {
    if k == [] {
      assert l + k == l;
    } else {
      var n := |k| - 1;
      GateStays(l, k[..n]);
      assert (l + k)[..|l| + n] == l + k[..n];
      assert k[n] in k;
    }
  }
}
