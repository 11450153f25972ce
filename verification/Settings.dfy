/** The four radio settings, their tables, and the link-change messages that carry them. */
module Settings {
  import opened Platform

  /** Indices into the tables below, and a power in dBm: what the enums and the `int8_t` of the program hold. */
  datatype Quad = Quad(sf: Byte, bw: Byte, ch: Byte, power: SByte)

  const SPREADING_FACTOR_TABLE: seq<int> := [7, 8, 9, 10, 11, 12]
  const SIGNAL_BANDWIDTH_TABLE: seq<int> := [125000, 250000, 500000]
  const FREQUENCY_CHANNEL_TABLE: seq<int> :=
    [9030, 9046, 9062, 9078, 9094, 9110, 9126, 9142, 9233, 9239, 9245, 9251, 9257, 9263, 9269, 9275]
  const MIN_TX_POWER := 2
  const MAX_TX_POWER := 20
  const DEFAULT_QUAD := Quad(0, 2, 0, 2)

  predicate ValidQuad(q: Quad) {
    && q.sf < |SPREADING_FACTOR_TABLE|
    && q.bw < |SIGNAL_BANDWIDTH_TABLE|
    && q.ch < |FREQUENCY_CHANNEL_TABLE|
    && MIN_TX_POWER <= q.power <= MAX_TX_POWER
  }

  /** Radios hear each other when everything but the power agrees. */
  predicate SameLink(a: Quad, b: Quad) {
    a.sf == b.sf && a.bw == b.bw && a.ch == b.ch
  }

  // ---------- What the setters make of settings that may be invalid ----------

  predicate AcceptsSpreadingFactor(sf: Byte) { sf < |SPREADING_FACTOR_TABLE| }

  predicate AcceptsBandwidth(bw: Byte) { bw < |SIGNAL_BANDWIDTH_TABLE| }

  predicate AcceptsChannel(ch: Byte) { ch < |FREQUENCY_CHANNEL_TABLE| }

  predicate AcceptsPower(power: SByte) { MIN_TX_POWER <= power <= MAX_TX_POWER }

  /** Whether any setter accepts its field of `q`. */
  predicate AnyAccepted(q: Quad) {
    AcceptsSpreadingFactor(q.sf) || AcceptsBandwidth(q.bw) || AcceptsChannel(q.ch) || AcceptsPower(q.power)
  }

  /** The settings that `q` leads to from `cur`: a rejected field stays as it is. */
  function Effective(cur: Quad, q: Quad): Quad {
    Quad(if AcceptsSpreadingFactor(q.sf) then q.sf else cur.sf,
         if AcceptsBandwidth(q.bw) then q.bw else cur.bw,
         if AcceptsChannel(q.ch) then q.ch else cur.ch,
         if AcceptsPower(q.power) then q.power else cur.power)
  }

  /** Every field that `q` gets rejected has nothing else to fall back to than its current value. */
  predicate Restorable(cur: Quad, prev: Quad, q: Quad) {
    && (AcceptsSpreadingFactor(q.sf) || prev.sf == cur.sf)
    && (AcceptsBandwidth(q.bw) || prev.bw == cur.bw)
    && (AcceptsChannel(q.ch) || prev.ch == cur.ch)
    && (AcceptsPower(q.power) || prev.power == cur.power)
  }

  /** The fallback that `q` leaves behind: only an accepted field takes on the current value. */
  function Fallback(cur: Quad, prev: Quad, q: Quad): Quad {
    Quad(if AcceptsSpreadingFactor(q.sf) then cur.sf else prev.sf,
         if AcceptsBandwidth(q.bw) then cur.bw else prev.bw,
         if AcceptsChannel(q.ch) then cur.ch else prev.ch,
         if AcceptsPower(q.power) then cur.power else prev.power)
  }

  /** Each field of `q` that a setter accepts is that of `e`. For valid `q` this is equality. */
  predicate Honours(q: Quad, e: Quad) {
    Effective(e, q) == e
  }

  /** What has been written to the radio module. */
  datatype Programmed = Programmed(spreadingFactor: int, bandwidthHz: int, frequencyMHz: real, powerDbm: int)

  function FrequencyMHz(ch: Byte): real
    requires ch < |FREQUENCY_CHANNEL_TABLE|
  {
    FREQUENCY_CHANNEL_TABLE[ch] as real / 10.0
  }

  function ProgrammedFor(q: Quad): Programmed
    requires ValidQuad(q)
  {
    Programmed(SPREADING_FACTOR_TABLE[q.sf], SIGNAL_BANDWIDTH_TABLE[q.bw], FrequencyMHz(q.ch), q.power)
  }

  const MSG_DATA_REQ: Byte := 1
  const MSG_LINK_CHANGE_REQ: Byte := 3
  const MSG_LINK_CHANGE_RSP: Byte := 4
  const MSG_HEARTBEAT_REQ: Byte := 7
  const MSG_HEARTBEAT_RSP: Byte := 8
  const BROADCAST_ADDRESS: Byte := 255
  const MAX_MESSAGE_LEN := 128

  /** A message buffer as a whole, and the bytes of one received message. */
  type Buffer = s: seq<Byte> | |s| == MAX_MESSAGE_LEN witness seq(MAX_MESSAGE_LEN, i => 0)
  type Payload = s: seq<Byte> | |s| <= MAX_MESSAGE_LEN witness []

  function QuadMessage(kind: Byte, q: Quad): Payload {
    [kind, q.sf, q.bw, q.ch, ToByte(q.power)]
  }

  function QuadFrom(buf: Buffer): Quad {
    Quad(buf[1], buf[2], buf[3], ToSByte(buf[4]))
  }

  /** A message lands at the front of the receive buffer; what lay behind it stays. */
  function Store(buf: Buffer, payload: Payload): Buffer {
    payload + buf[|payload|..]
  }

  /** What a shorter message does not cover is still there from the messages before. */
  lemma StoreKeepsTail(buf: Buffer, payload: Payload, i: nat)
    requires i < 128
    ensures Store(buf, payload)[i] == if i < |payload| then payload[i] else buf[i]
  {}

  /** Settings survive the trip over the air, the sign of the power included, whatever the buffer held before. */
  lemma QuadRoundTrip(kind: Byte, q: Quad, buf: Buffer)
    ensures Store(buf, QuadMessage(kind, q))[0] == kind
    ensures QuadFrom(Store(buf, QuadMessage(kind, q))) == q
  {
    var stored := Store(buf, QuadMessage(kind, q));
    assert stored[4] == ToByte(q.power);
  }
}
