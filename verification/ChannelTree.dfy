/** The tree of virtual channels carried by one connection end, as a value, with what each operation does to it.
    Root is the socket channel; Sub(p, n) is the virtual channel that p knows under number n. */
module ChannelTree {
  import opened Wire

  datatype Path = Root | Sub(parent: Path, number: nat)

  /** q is p itself or lies below p. */
  predicate Under(q: Path, p: Path) {
    q == p || (q.Sub? && Under(q.parent, p))
  }

  datatype ChannelError =
    | NoError
    | RemotePeerClosedError
    | ReceivingError
    | SendingError
    | InvalidCommand
    | InvalidPacket
    | UserShutdown
    | PacketTooLarge
    | UnknownError

  /** The fields of one DataChannel. `pending` holds the numbers of announced sub-channels nobody has taken yet. */
  datatype Node = Node(
    error: ChannelError,
    attached: bool,
    positive: bool,
    next: int,
    channels: set<nat>,
    pending: seq<nat>,
    received: seq<Bytes>,
    capacity: nat,
    goThrough: bool)

  /** A packet waiting in the sending queue of the socket channel, or on the wire: which channel it belongs to and what it carries. */
  datatype Msg = Msg(path: Path, body: Body)

  datatype Conn = Conn(nodes: map<Path, Node>, queue: seq<Msg>, maxPayload: nat)

  const FIRST_POSITIVE := 2
  const FIRST_NEGATIVE := U32_LIMIT - 1

  function NewNode(positive: bool, capacity: nat): Node {
    Node(NoError, true, positive, if positive then FIRST_POSITIVE else FIRST_NEGATIVE, {}, [], [], capacity, true)
  }

  predicate Open(c: Conn, p: Path) {
    p in c.nodes && c.nodes[p].error == NoError
  }

  /** The numbers a channel has handed out so far. */
  predicate Own(nd: Node, n: nat) {
    if nd.positive then FIRST_POSITIVE <= n < nd.next else nd.next < n <= FIRST_NEGATIVE
  }

  // ---- Structure every connection end keeps ----

  ghost predicate TreeShape(c: Conn) {
    && Root in c.nodes
    && (forall p: Path, n: nat {:trigger Sub(p, n)} :: Sub(p, n) in c.nodes ==> p in c.nodes && 2 <= n < U32_LIMIT)
  }

  ghost predicate OpenShape(c: Conn) {
    forall p: Path, n: nat {:trigger Sub(p, n)} :: Open(c, Sub(p, n)) ==>
      Open(c, p) && n in c.nodes[p].channels && c.nodes[Sub(p, n)].attached
  }

  ghost predicate Tables(c: Conn) {
    forall p: Path, n: nat :: p in c.nodes && n in c.nodes[p].channels ==> Open(c, p) && Open(c, Sub(p, n))
  }

  ghost predicate PendingShape(nd: Node) {
    && (forall i :: 0 <= i < |nd.pending| ==> nd.pending[i] in nd.channels)
    && (forall i, j :: 0 <= i < j < |nd.pending| ==> nd.pending[i] != nd.pending[j])
  }

  ghost predicate Pendings(c: Conn) {
    forall p :: Open(c, p) ==> PendingShape(c.nodes[p])
  }

  ghost predicate QueueOpen(c: Conn) {
    forall m :: m in c.queue ==> Open(c, m.path)
  }

  ghost predicate Numbers(c: Conn) {
    forall p :: p in c.nodes ==>
      var nd := c.nodes[p];
      if nd.positive then FIRST_POSITIVE <= nd.next <= U32_LIMIT else 1 <= nd.next <= FIRST_NEGATIVE
  }

  ghost predicate Skeleton(c: Conn) {
    TreeShape(c) && OpenShape(c) && Tables(c) && QueueOpen(c) && Numbers(c)
  }

  ghost predicate WellFormed(c: Conn) {
    Skeleton(c) && Pendings(c)
  }

  // ---- Operations ----

  /** _put_packet_in_sending_queue, seen from the channel that sends: nothing is queued for a closed channel. */
  function Enqueue(c: Conn, m: Msg): Conn {
    if Open(c, m.path) then c.(queue := c.queue + [m]) else c
  }

  function Step(nd: Node): int { if nd.positive then 1 else -1 }

  /** make_channel, up to the point where the MAKE command is queued. */
  function MakeNode(c: Conn, p: Path): Conn
    requires Open(c, p) && 0 <= c.nodes[p].next
  {
    var nd := c.nodes[p];
    var n: nat := nd.next;
    c.(nodes := c.nodes[p := nd.(next := n + Step(nd), channels := nd.channels + {n})][Sub(p, n) := NewNode(true, nd.capacity)])
  }

  /** make_channel */
  function Make(c: Conn, p: Path): Conn
    requires Open(c, p) && 0 <= c.nodes[p].next
  {
    Enqueue(MakeNode(c, p), Msg(p, MakeChannel(c.nodes[p].next)))
  }

  /** Handling of a MAKE command: the new channel waits in `pending` for the application to take it. */
  function Announced(c: Conn, p: Path, n: nat): Conn
    requires Open(c, p)
  {
    var nd := c.nodes[p];
    c.(nodes := c.nodes[p := nd.(channels := nd.channels + {n}, pending := nd.pending + [n])]
                       [Sub(p, n) := NewNode(false, nd.capacity)])
  }

  /** Handling of a data packet: SLOW_DOWN goes out when this packet fills the receiving queue. */
  function Receive(c: Conn, p: Path, d: Bytes): Conn
    requires Open(c, p)
  {
    var nd := c.nodes[p];
    var c1 := c.(nodes := c.nodes[p := nd.(received := nd.received + [d])]);
    if |nd.received| == nd.capacity - 1 then Enqueue(c1, Msg(p, SlowDown)) else c1
  }

  /** recv_packet on a non-empty queue: GO_THROUGH goes out when this makes the first free place. */
  function TakePacket(c: Conn, p: Path): Conn
    requires p in c.nodes && c.nodes[p].received != []
  {
    var nd := c.nodes[p];
    var c1 := c.(nodes := c.nodes[p := nd.(received := nd.received[1..])]);
    if |nd.received| - 1 == nd.capacity - 1 then Enqueue(c1, Msg(p, GoThrough)) else c1
  }

  /** take_channel with a number: the first entry with that number leaves, the others keep their order. */
  function Without(s: seq<nat>, n: nat): seq<nat> {
    if s == [] then [] else if s[0] == n then s[1..] else [s[0]] + Without(s[1..], n)
  }

  function SetPending(c: Conn, p: Path, pending: seq<nat>): Conn
    requires p in c.nodes
  {
    c.(nodes := c.nodes[p := c.nodes[p].(pending := pending)])
  }

  function TakeChannel(c: Conn, p: Path, n: nat): Conn
    requires p in c.nodes
  {
    if Open(c, p) then SetPending(c, p, Without(c.nodes[p].pending, n)) else c
  }

  function SetGate(c: Conn, p: Path, go: bool): Conn
    requires p in c.nodes
  {
    c.(nodes := c.nodes[p := c.nodes[p].(goThrough := go)])
  }

  /** _clean_sending_packet: what is left of a sending queue when the channel q goes away. */
  function Purge(s: seq<Msg>, q: Path): seq<Msg> {
    if s == [] then []
    else
      var m := s[|s| - 1];
      Purge(s[..|s| - 1], q) + if Under(m.path, q) then [] else [m]
  }

  function Shut(nd: Node, reason: ChannelError, keepAttached: bool): Node {
    nd.(error := reason, attached := nd.attached && keepAttached, channels := {}, goThrough := true)
  }

  /** The cascade of close(): every open channel at or below q gets the error and loses its table. */
  function CloseUnder(nodes: map<Path, Node>, q: Path, reason: ChannelError, keepAttached: bool): map<Path, Node> {
    map p | p in nodes ::
      if Under(p, q) && nodes[p].error == NoError then Shut(nodes[p], reason, keepAttached && p == q) else nodes[p]
  }

  /** The parent's side of _clean_channel: the table entry goes. */
  function Forget(nodes: map<Path, Node>, p: Path, n: nat): map<Path, Node>
    requires p in nodes
  {
    nodes[p := nodes[p].(channels := nodes[p].channels - {n})]
  }

  /** close() of a virtual channel by its owner. */
  function Close(c: Conn, q: Path, reason: ChannelError): Conn
    requires q.Sub? && q.parent in c.nodes
  {
    if !Open(c, q) then c
    else
      c.(nodes := CloseUnder(Forget(c.nodes, q.parent, q.number), q, reason, true),
         queue := Purge(c.queue + [Msg(q.parent, DestroyChannel(q.number))], q))
  }

  /** Handling of a DESTROY command: the same cleaning, but nothing is sent back. */
  function Destroyed(c: Conn, p: Path, n: nat): Conn
    requires Open(c, p)
  {
    if n !in c.nodes[p].channels then c
    else
      var c1 := SetPending(c, p, Without(c.nodes[p].pending, n));
      c1.(nodes := CloseUnder(Forget(c1.nodes, p, n), Sub(p, n), RemotePeerClosedError, false),
          queue := Purge(c1.queue, Sub(p, n)))
  }

  /** close() of the socket channel: the sending queue is drained and the whole tree goes. */
  function CloseRoot(c: Conn, reason: ChannelError): Conn {
    if !Open(c, Root) then c
    else c.(nodes := CloseUnder(c.nodes, Root, reason, true), queue := [])
  }

  function Depth(p: Path): nat {
    if p.Root? then 0 else 1 + Depth(p.parent)
  }

  function BodySize(b: Body): nat {
    match b
    case Data(d) => |d|
    case MakeChannel(_) => 5
    case ChannelMade(_) => 5
    case DestroyChannel(_) => 5
    case _ => 1
  }

  /** The size of a packet by the time every parent has put its 4-byte header before it. */
  function WireSize(m: Msg): nat {
    4 * Depth(m.path) + BodySize(m.body)
  }

  /** max_payload_size of the channel at p. */
  function MaxPayloadSize(c: Conn, p: Path): int {
    c.maxPayload - 4 * Depth(p)
  }

  /** max_packet_size of the channel at p, which send_packet checks. */
  function MaxPacketSize(c: Conn, p: Path): int {
    if p.Root? then c.maxPayload + 8 else MaxPayloadSize(c, p.parent)
  }

  /** One packet arriving for a channel that is there. */
  function Handle(c: Conn, m: Msg): Conn
    requires Open(c, m.path)
  {
    match m.body
    case MakeChannel(n) => Announced(c, m.path, n)
    case DestroyChannel(n) => Destroyed(c, m.path, n)
    case SlowDown => SetGate(c, m.path, false)
    case GoThrough => SetGate(c, m.path, true)
    case Data(d) => Receive(c, m.path, d)
    case ChannelMade(_) => c
    case Keepalive => c
  }

  // ---- Facts about paths ----

  lemma UnderParent(q: Path, p: Path)
    requires Under(q, p) && p.Sub?
    ensures q.Sub? && Under(q, p.parent) && q != p.parent
  {
    if q != p {
      UnderParent(q.parent, p);
    } else {
      ParentAbove(p);
    }
  }

  lemma ParentAbove(p: Path)
    requires p.Sub?
    ensures Under(p, p.parent) && !Under(p.parent, p)
  {
    if Under(p.parent, p) {
      UnderDepth(p.parent, p);
    }
  }

  lemma UnderDepth(q: Path, p: Path)
    requires Under(q, p)
    ensures Depth(p) <= Depth(q) && (Depth(p) == Depth(q) ==> p == q)
  {
  }

  lemma UnderRoot(q: Path)
    ensures Under(q, Root)
  {
  }

  /** Above an open channel everything is open. */
  lemma OpenAbove(c: Conn, q: Path, p: Path)
    requires OpenShape(c) && Open(c, q) && Under(q, p)
    ensures Open(c, p)
  {
    if q != p {
      assert q == Sub(q.parent, q.number);
      OpenAbove(c, q.parent, p);
    }
  }
}
