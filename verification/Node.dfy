/** One node of the link as a value, and what every operation of the protocol class does to it. */
module Node {
  import opened Platform
  import opened Settings
  import opened Timer
  import opened ErrorFraction

  const LINK_CHANGE_TIMEOUT_MILLIS := 3000
  const HEARTBEAT_TIMEOUT_MILLIS := 7000
  const SUCCESSFUL_PACKETS_BEFORE_LINK_IS_TRUSTED := 3
  const TRUST_TIMEOUT_MILLIS :=
    SUCCESSFUL_PACKETS_BEFORE_LINK_IS_TRUSTED * HEARTBEAT_TIMEOUT_MILLIS + LINK_CHANGE_TIMEOUT_MILLIS

  /** What a node does that can be seen from outside it, and each packet outcome it records. */
  datatype Act =
    | Indicated(q: Quad)
    | Counted(success: bool)
    | Transmitted(buf: seq<Byte>, dest: Byte)
    | TxInd(buf: seq<Byte>, dest: Byte, acked: bool)
    | RxInd(buf: seq<Byte>, src: Byte)

  /** Everything a node has done, latest last. */
  datatype Trace = Empty | Snoc(before: Trace, last: Act)

  /** The settings of a node's radio, where they fall back to, and the packet statistics kept since they changed. */
  datatype Link = Link(
    cur: Quad,
    prev: Quad,
    radio: Programmed,
    packetCount: nat,
    packetErrorCount: nat,
    packetErrorFraction: real,
    trace: Trace)

  datatype Node = Node(
    address: Byte,
    link: Link,
    now: nat,                  // true time of the last clock reading; the program keeps it modulo 2^32
    linkTimer: TimerState,
    heartbeatTimer: TimerState,
    commandMode: bool,
    cmd: seq<Byte>,
    tx: seq<Byte>,
    rx: Buffer)

  /** One call of the timer service: when it reads the clock, and how a broadcast sent from it ends. */
  datatype Tick = Tick(now: nat, sent: bool)

  datatype Packet = Packet(src: Byte, payload: Payload)

  function Boot(address: Byte, radio: Programmed, rx: Buffer): Node {
    Node(address, Link(DEFAULT_QUAD, DEFAULT_QUAD, radio, 0, 0, 0.0, Empty), 0,
      TimerState(LINK_CHANGE_TIMEOUT_MILLIS, 0, false, false, false),
      TimerState(HEARTBEAT_TIMEOUT_MILLIS, 0, true, false, false),
      false, [], [], rx)
  }

  // ---------- Packet outcomes ----------

  function Record(l: Link, act: Act): Link {
    l.(trace := Snoc(l.trace, act))
  }

  function UpdatePacketErrorFraction(l: Link, success: bool): Link {
    Record(l, Counted(success)).(
      packetCount := l.packetCount + 1,
      packetErrorCount := l.packetErrorCount + (if success then 0 else 1),
      packetErrorFraction := AfterPacket(l.packetErrorFraction, l.packetCount + 1, success))
  }

  function ResetPacketErrorFraction(l: Link): Link {
    l.(packetErrorFraction := 0.0, packetCount := 0, packetErrorCount := 0)
  }

  // ---------- Settings ----------

  function SetSpreadingFactor(l: Link, sf: Byte): Link {
    if sf >= |SPREADING_FACTOR_TABLE| then l
    else
      var q := l.cur.(sf := sf);
      Record(ResetPacketErrorFraction(l), Indicated(q)).(
        radio := l.radio.(spreadingFactor := SPREADING_FACTOR_TABLE[sf]),
        prev := l.prev.(sf := l.cur.sf), cur := q)
  }

  function SetBandwidth(l: Link, bw: Byte): Link {
    if bw >= |SIGNAL_BANDWIDTH_TABLE| then l
    else
      var q := l.cur.(bw := bw);
      Record(ResetPacketErrorFraction(l), Indicated(q)).(
        radio := l.radio.(bandwidthHz := SIGNAL_BANDWIDTH_TABLE[bw]),
        prev := l.prev.(bw := l.cur.bw), cur := q)
  }

  function SetFrequencyChannel(l: Link, ch: Byte): Link {
    if ch >= |FREQUENCY_CHANNEL_TABLE| then l
    else
      var q := l.cur.(ch := ch);
      Record(ResetPacketErrorFraction(l), Indicated(q)).(
        radio := l.radio.(frequencyMHz := FrequencyMHz(ch)),
        prev := l.prev.(ch := l.cur.ch), cur := q)
  }

  function SetTxPower(l: Link, power: SByte): Link {
    if power > MAX_TX_POWER || power < MIN_TX_POWER then l
    else
      var q := l.cur.(power := power);
      Record(ResetPacketErrorFraction(l), Indicated(q)).(
        radio := l.radio.(powerDbm := power),
        prev := l.prev.(power := l.cur.power), cur := q)
  }

  /** All four setters, in the order the program always calls them. */
  function ApplyQuad(l: Link, q: Quad): Link {
    SetFrequencyChannel(SetTxPower(SetBandwidth(SetSpreadingFactor(l, q.sf), q.bw), q.power), q.ch)
  }

  /** Each setter back to the value its field held before: the fallback of both sides of a link change. */
  function RollBack(l: Link): Link {
    ApplyQuad(l, l.prev)
  }

  /** `setupRadio` once the radio has answered. */
  function Setup(n: Node): Node {
    n.(link := ApplyQuad(n.link, DEFAULT_QUAD))
  }

  // ---------- Sending ----------

  function ServiceTx(l: Link, dest: Byte, buf: seq<Byte>, sent: bool): Link {
    if buf == [] then l
    else
      var acked := sent && dest != BROADCAST_ADDRESS;
      var onAir := Record(l, Transmitted(buf, dest));
      var counted := if acked || !sent then UpdatePacketErrorFraction(onAir, acked) else onAir;
      Record(counted, TxInd(buf, dest, acked))
  }

  function SendTxMessage(n: Node, dest: Byte, sent: bool): Node {
    n.(link := ServiceTx(n.link, dest, n.tx, sent), tx := [])
  }

  // ---------- Timers ----------

  function LinkChangeReqTimeout(n: Node): Node {
    n.(linkTimer := n.linkTimer.ClearDone(), link := RollBack(n.link))
  }

  function HeartbeatReq(n: Node, sent: bool): Node {
    n.(link := ServiceTx(n.link, BROADCAST_ADDRESS, [MSG_HEARTBEAT_REQ, n.address], sent))
  }

  function UpdateTimers(n: Node, now: nat): Node {
    n.(now := now,
       linkTimer := n.linkTimer.Update(Wrap32(now)),
       heartbeatTimer := n.heartbeatTimer.Update(Wrap32(now)))
  }

  function ServiceLinkTimer(n: Node): Node {
    if n.linkTimer.done then
      var back := LinkChangeReqTimeout(n);
      back.(linkTimer := back.linkTimer.ClearDone())
    else n
  }

  function ServiceHeartbeatTimer(n: Node, sent: bool): Node {
    if n.heartbeatTimer.done then
      var beaten := HeartbeatReq(n, sent);
      beaten.(heartbeatTimer := beaten.heartbeatTimer.ClearDone())
    else n
  }

  function ServiceTimers(n: Node, t: Tick): Node {
    ServiceHeartbeatTimer(ServiceLinkTimer(UpdateTimers(n, t.now)), t.sent)
  }

  /** Pause, set the timeout, service the timers, start: how the rollback timer is armed. */
  function ArmLinkTimer(n: Node, timeout: Word32, t: Tick): Node {
    var serviced := ServiceTimers(n.(linkTimer := n.linkTimer.Pause().ClearDone().SetTimeout(timeout)), t);
    serviced.(linkTimer := serviced.linkTimer.Start())
  }

  // ---------- Link changes ----------

  /** The client puts its request on the air; what follows depends on the acknowledgement. */
  function SendLinkChangeReq(n: Node, dest: Byte, q: Quad): Node {
    n.(link := Record(n.link, Transmitted(QuadMessage(MSG_LINK_CHANGE_REQ, q), dest)))
  }

  function EndLinkChangeReq(n: Node, q: Quad, acked: bool, t: Tick): Node {
    if acked then ArmLinkTimer(n.(link := ApplyQuad(n.link, q)), LINK_CHANGE_TIMEOUT_MILLIS, t) else n
  }

  function LinkChangeReq(n: Node, dest: Byte, q: Quad, acked: bool, t: Tick): Node {
    EndLinkChangeReq(SendLinkChangeReq(n, dest, q), q, acked, t)
  }

  /** The server switches and puts its response on the air, on the new settings. */
  function StartLinkChange(l: Link, src: Byte, q: Quad): Link {
    var changed := ApplyQuad(l, q);
    Record(changed, Transmitted(QuadMessage(MSG_LINK_CHANGE_RSP, changed.cur), src))
  }

  function EndLinkChange(l: Link, acked: bool): Link {
    if acked then l else RollBack(l)
  }

  // ---------- Receiving ----------

  function AcceptPacket(n: Node, p: Packet): Node {
    n.(link := Record(n.link, RxInd(p.payload, p.src)), rx := Store(n.rx, p.payload))
  }

  /** The handler chosen by the first byte of the receive buffer. */
  function HandlePacket(n: Node, src: Byte, t: Tick, sent: bool): Node {
    if n.rx[0] == MSG_LINK_CHANGE_REQ then
      n.(link := EndLinkChange(StartLinkChange(n.link, src, QuadFrom(n.rx)), sent))
    else if n.rx[0] == MSG_LINK_CHANGE_RSP then
      ArmLinkTimer(n, TRUST_TIMEOUT_MILLIS, t)
    else if n.rx[0] == MSG_HEARTBEAT_REQ then
      n.(link := ServiceTx(n.link, src, [MSG_HEARTBEAT_RSP, n.address], sent))
    else n
  }

  predicate Trusts(l: Link) {
    l.packetCount - l.packetErrorCount > SUCCESSFUL_PACKETS_BEFORE_LINK_IS_TRUSTED
  }

  /** While a link change is pending, a packet pushes its deadline back, or drops it once the link is trusted. */
  function Postpone(n: Node, t: Tick): Node {
    if !n.linkTimer.started then n
    else if Trusts(n.link) then
      ServiceTimers(n.(linkTimer := n.linkTimer.Reset(Wrap32(n.now)).Pause().ClearDone()), t)
    else n.(linkTimer := n.linkTimer.Reset(Wrap32(n.now)))
  }

  function FinishPacket(n: Node, t: Tick): Node {
    Postpone(n.(link := UpdatePacketErrorFraction(n.link, true)), t)
  }

  function ReceivePacket(n: Node, p: Packet, h: Tick, sent: bool, t: Tick): Node {
    FinishPacket(HandlePacket(AcceptPacket(n, p), p.src, h, sent), t)
  }

  /** `serviceRx`: the timers first, then at most one packet. */
  function ServiceRx(n: Node, first: Tick, p: Option<Packet>, h: Tick, sent: bool, t: Tick): Node {
    var serviced := ServiceTimers(n, first);
    if p.Some? then ReceivePacket(serviced, p.value, h, sent, t) else serviced
  }

  // ---------- Serial port ----------

  const BANG: Byte := '!' as int
  const NEWLINE: Byte := '\n' as int
  const RETURN: Byte := '\r' as int
  const HASH: Byte := '#' as int
  const STAR: Byte := '*' as int
  const SPACE: Byte := ' ' as int
  const AMPERSAND: Byte := '&' as int
  const ZERO: Byte := '0' as int
  const ESCAPE: Byte := 27

  /** The number a command carries: one digit when it is two characters long, else the first two. */
  function CommandValue(cmd: seq<Byte>): int
    requires |cmd| >= 2
  {
    if |cmd| == 2 then cmd[1] - ZERO else (cmd[1] - ZERO) * 10 + (cmd[2] - ZERO)
  }

  function ExecuteCommand(l: Link, cmd: seq<Byte>): Link {
    if |cmd| < 2 then l
    else if cmd[0] == 'S' as int then SetSpreadingFactor(l, ToByte(cmd[1] - ZERO))
    else if cmd[0] == 'B' as int then SetBandwidth(l, ToByte(cmd[1] - ZERO))
    else if cmd[0] == 'C' as int then SetFrequencyChannel(l, ToByte(CommandValue(cmd)))
    else if cmd[0] == 'P' as int then SetTxPower(l, ToSByte(CommandValue(cmd)))
    else l
  }

  function Encode(c: Byte): seq<Byte> {
    if c == NEWLINE || c == RETURN || c == STAR || c == SPACE then []
    else if c == HASH then [ESCAPE]
    else if c == AMPERSAND then [RETURN]
    else [c]
  }

  function Opened(tx: seq<Byte>): seq<Byte> {
    if tx == [] then [MSG_DATA_REQ] else tx
  }

  function SerialChar(n: Node, c: Byte): Node {
    if n.commandMode || c == BANG then
      if c == NEWLINE then n.(link := ExecuteCommand(n.link, n.cmd), cmd := [], commandMode := false)
      else if c == RETURN || c == BANG || |n.cmd| >= MAX_MESSAGE_LEN then n.(commandMode := true)
      else n.(commandMode := true, cmd := n.cmd + [c])
    else n.(tx := Opened(n.tx) + Encode(c))
  }

  /** 1 when the character ends a line of data. */
  function SerialResult(n: Node, c: Byte): Byte {
    if !n.commandMode && (c == NEWLINE || c == RETURN) then 1 else 0
  }

  function SerialRun(n: Node, input: seq<Byte>): Node
    decreases |input|
  {
    if input == [] then n else SerialRun(SerialChar(n, input[0]), input[1..])
  }

  // ---------- Runs ----------

  /** The steps a node takes. A step never waits for its peer, so a public call may be more than one. */
  datatype Event =
    | Timers(t: Tick)
    | Receive(p: Packet, h: Tick, sent: bool, t: Tick)
    | Transmit(dest: Byte, buf: seq<Byte>, sent: bool)
    | TransmitTx(dest: Byte, sent: bool)
    | Request(dest: Byte, q: Quad, acked: bool, t: Tick)
    | ChangeSpreadingFactor(sf: Byte)
    | ChangeBandwidth(bw: Byte)
    | ChangeFrequencyChannel(ch: Byte)
    | ChangeTxPower(power: SByte)
    | Serial(c: Byte)
    | StartHeartbeats
    | StopHeartbeats

  function Step(n: Node, e: Event): Node {
    match e
    case Timers(t) => ServiceTimers(n, t)
    case Receive(p, h, sent, t) => ReceivePacket(n, p, h, sent, t)
    case Transmit(dest, buf, sent) => n.(link := ServiceTx(n.link, dest, buf, sent))
    case TransmitTx(dest, sent) => SendTxMessage(n, dest, sent)
    case Request(dest, q, acked, t) => LinkChangeReq(n, dest, q, acked, t)
    case ChangeSpreadingFactor(sf) => n.(link := SetSpreadingFactor(n.link, sf))
    case ChangeBandwidth(bw) => n.(link := SetBandwidth(n.link, bw))
    case ChangeFrequencyChannel(ch) => n.(link := SetFrequencyChannel(n.link, ch))
    case ChangeTxPower(power) => n.(link := SetTxPower(n.link, power))
    case Serial(c) => SerialChar(n, c)
    case StartHeartbeats => n.(heartbeatTimer := n.heartbeatTimer.Start())
    case StopHeartbeats => n.(heartbeatTimer := n.heartbeatTimer.Pause())
  }

  function Run(n: Node, events: seq<Event>): Node
    decreases |events|
  {
    if events == [] then n else Run(Step(n, events[0]), events[1..])
  }
}
