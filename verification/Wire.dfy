/** Bytes on the wire: big-endian 32-bit numbers and the command packets of a channel. */
module Wire {

  type Byte = x: int | 0 <= x < 256
  type Bytes = seq<Byte>

  datatype Option<+T> = None | Some(value: T)

  const U32_LIMIT := 0x1_0000_0000

  /** struct.pack("!I", n) */
  function PackU32(n: nat): (bs: Bytes)
    requires n < U32_LIMIT
    ensures |bs| == 4
  {
    [n / 0x100_0000, n / 0x1_0000 % 0x100, n / 0x100 % 0x100, n % 0x100]
  }

  /** struct.unpack("!I", bs) */
  function UnpackU32(bs: Bytes): (n: nat)
    requires |bs| == 4
    ensures n < U32_LIMIT
  {
    (bs[0] as int) * 0x100_0000 + (bs[1] as int) * 0x1_0000 + (bs[2] as int) * 0x100 + bs[3] as int
  }

  lemma U32RoundTrip(n: nat)
    requires n < U32_LIMIT
    ensures UnpackU32(PackU32(n)) == n
  {
    assert n == n / 0x100 * 0x100 + n % 0x100;
    var m := n / 0x100;
    assert m == m / 0x100 * 0x100 + m % 0x100;
    assert m / 0x100 == n / 0x1_0000;
    var k := m / 0x100;
    assert k == k / 0x100 * 0x100 + k % 0x100;
    assert k / 0x100 == n / 0x100_0000;
  }

  /** What one packet on a channel carries: application data (channel number 1) or a command (number 0). */
  datatype Body =
    | MakeChannel(number: nat)
    | ChannelMade(number: nat)
    | DestroyChannel(number: nat)
    | SlowDown
    | GoThrough
    | Keepalive
    | Data(payload: Bytes)

  const COMMAND_CHANNEL_NUMBER: nat := 0
  const DATA_CHANNEL_NUMBER: nat := 1

  /** The numbers inside a command fit the 32-bit field that carries them. */
  predicate Packable(b: Body) {
    match b
    case MakeChannel(n) => n < U32_LIMIT
    case ChannelMade(n) => n < U32_LIMIT
    case DestroyChannel(n) => n < U32_LIMIT
    case _ => true
  }

  /** pack_make_channel_request .. pack_keepalive_request */
  function PackCommand(b: Body): (bs: Bytes)
    requires !b.Data? && Packable(b)
    ensures 1 <= |bs| <= 5
  {
    match b
    case MakeChannel(n) => [1] + PackU32(n)
    case ChannelMade(n) => [2] + PackU32(n)
    case DestroyChannel(n) => [3] + PackU32(n)
    case SlowDown => [4]
    case GoThrough => [5]
    case Keepalive => [6]
  }

  /** unpack_command: None is the answer to a packet of another length or with another code. */
  function UnpackCommand(bs: Bytes): (r: Option<Body>)
    ensures r.Some? ==> !r.value.Data? && Packable(r.value)
  {
    if |bs| == 5 then
      var n := UnpackU32(bs[1..]);
      match bs[0]
      case 1 => Some(MakeChannel(n))
      case 2 => Some(ChannelMade(n))
      case 3 => Some(DestroyChannel(n))
      case _ => None
    else if |bs| == 1 then
      match bs[0]
      case 4 => Some(SlowDown)
      case 5 => Some(GoThrough)
      case 6 => Some(Keepalive)
      case _ => None
    else None
  }

  lemma CommandRoundTrip(b: Body)
    requires !b.Data? && Packable(b)
    ensures UnpackCommand(PackCommand(b)) == Some(b)
  {
    if b.MakeChannel? || b.ChannelMade? || b.DestroyChannel? {
      assert PackCommand(b)[1..] == PackU32(b.number);
      U32RoundTrip(b.number);
    }
  }

  /** The channel number a body travels under, and its bytes. */
  function Terminal(b: Body): (n: nat) {
    if b.Data? then DATA_CHANNEL_NUMBER else COMMAND_CHANNEL_NUMBER
  }

  function BodyBytes(b: Body): Bytes
    requires Packable(b)
  {
    if b.Data? then b.payload else PackCommand(b)
  }
}
