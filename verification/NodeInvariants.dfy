/** What holds of a node after setup, whatever it is asked to do and however its sends end. */
module NodeInvariants {
  import opened Platform
  import opened Settings
  import opened Timer
  import opened ErrorFraction
  import opened Node

  // ---------- Read back from the trace ----------

  /** The packet outcomes recorded since the settings last changed. */
  function PacketsSinceChange(trace: Trace): seq<bool> {
    match trace
    case Empty => []
    case Snoc(before, Counted(success)) => PacketsSinceChange(before) + [success]
    case Snoc(_, Indicated(_)) => []
    case Snoc(before, _) => PacketsSinceChange(before)
  }

  /** The settings the user was last told of. */
  function LastIndicated(trace: Trace): Option<Quad> {
    match trace
    case Empty => None
    case Snoc(_, Indicated(q)) => Some(q)
    case Snoc(before, _) => LastIndicated(before)
  }

  /** The packets recorded as successes since the settings last changed, as the program computes it. */
  function Successes(l: Link): int {
    l.packetCount - l.packetErrorCount
  }

  // ---------- The invariant ----------

  /** The counters and the error fraction are those of the packets recorded since the settings last changed. */
  predicate CountersMatch(l: Link) {
    var h := PacketsSinceChange(l.trace);
    && l.packetCount == |h|
    && l.packetErrorCount == Errors(h)
    && l.packetErrorFraction == Fraction(h)
    && l.packetErrorCount <= l.packetCount
  }

  /** The radio is programmed to valid settings, the user knows them, and there are valid settings to fall back to. */
  predicate SettingsMatch(l: Link) {
    && ValidQuad(l.cur) && ValidQuad(l.prev)
    && l.radio == ProgrammedFor(l.cur)
    && LastIndicated(l.trace) == Some(l.cur)
  }

  predicate SoundLink(l: Link) {
    SettingsMatch(l) && CountersMatch(l)
  }

  predicate TimersSettled(n: Node) {
    && !n.linkTimer.done && !n.linkTimer.repeating
    && (n.linkTimer.timeout == LINK_CHANGE_TIMEOUT_MILLIS || n.linkTimer.timeout == TRUST_TIMEOUT_MILLIS)
    && !n.heartbeatTimer.done && n.heartbeatTimer.repeating
    && n.heartbeatTimer.timeout == HEARTBEAT_TIMEOUT_MILLIS
  }

  predicate SerialSettled(n: Node) {
    && |n.cmd| <= MAX_MESSAGE_LEN
    && (!n.commandMode ==> n.cmd == [])
    && (n.tx != [] ==> n.tx[0] == MSG_DATA_REQ)
  }

  predicate Sound(n: Node) {
    SoundLink(n.link) && TimersSettled(n) && SerialSettled(n)
  }

  /** Setup establishes it, whatever the radio and the receive buffer held at power-on. */
  lemma SetupIsSound(address: Byte, radio: Programmed, rx: Buffer)
    ensures Sound(Setup(Boot(address, radio, rx)))
  {}

  // ---------- Links ----------

  lemma RecordSound(l: Link, act: Act)
    requires SoundLink(l) && !act.Counted? && !act.Indicated?
    ensures SoundLink(Record(l, act))
  {}

  lemma UpdateSound(l: Link, success: bool)
    requires SoundLink(l)
    ensures SoundLink(UpdatePacketErrorFraction(l, success))
  {
    AppendPacket(PacketsSinceChange(l.trace), success);
  }

  lemma SettersSound(l: Link, q: Quad)
    requires SoundLink(l)
    ensures SoundLink(SetSpreadingFactor(l, q.sf))
    ensures SoundLink(SetBandwidth(l, q.bw))
    ensures SoundLink(SetFrequencyChannel(l, q.ch))
    ensures SoundLink(SetTxPower(l, q.power))
  {}

  lemma ApplySound(l: Link, q: Quad)
    requires SoundLink(l)
    ensures SoundLink(ApplyQuad(l, q))
  {
    var a := SetSpreadingFactor(l, q.sf);
    var b := SetBandwidth(a, q.bw);
    var c := SetTxPower(b, q.power);
    SettersSound(l, q);
    SettersSound(a, q);
    SettersSound(b, q);
    SettersSound(c, q);
  }

  /** What the four setters do to settings, fallback and statistics, whether they accept their arguments or not. */
  lemma ApplyAny(l: Link, q: Quad)
    ensures var m := ApplyQuad(l, q);
      && m.cur == Effective(l.cur, q) && m.prev == Fallback(l.cur, l.prev, q)
      && Successes(m) == if AnyAccepted(q) then 0 else Successes(l)
  {
    var a := SetSpreadingFactor(l, q.sf);
    var b := SetBandwidth(a, q.bw);
    var c := SetTxPower(b, q.power);
    assert a.prev == l.prev.(sf := a.prev.sf) && a.cur == l.cur.(sf := a.cur.sf);
    assert b.prev == a.prev.(bw := b.prev.bw) && b.cur == a.cur.(bw := b.cur.bw);
    assert c.prev == b.prev.(power := c.prev.power) && c.cur == b.cur.(power := c.cur.power);
  }

  lemma ApplyValid(l: Link, q: Quad)
    requires ValidQuad(q)
    ensures var m := ApplyQuad(l, q);
      m.cur == q && m.prev == l.cur && m.packetCount == 0 == m.packetErrorCount
  {}

  lemma TxSound(l: Link, dest: Byte, buf: seq<Byte>, sent: bool)
    requires SoundLink(l)
    ensures var m := ServiceTx(l, dest, buf, sent);
      && SoundLink(m)
      && m.cur == l.cur && m.prev == l.prev
      && Successes(m) == Successes(l) + if buf != [] && sent && dest != BROADCAST_ADDRESS then 1 else 0
  {
    if buf != [] {
      var acked := sent && dest != BROADCAST_ADDRESS;
      var onAir := Record(l, Transmitted(buf, dest));
      RecordSound(l, Transmitted(buf, dest));
      UpdateSound(onAir, acked);
      var counted := if acked || !sent then UpdatePacketErrorFraction(onAir, acked) else onAir;
      RecordSound(counted, TxInd(buf, dest, acked));
      assert ServiceTx(l, dest, buf, sent) == Record(counted, TxInd(buf, dest, acked));
    }
  }

  /** A send is recorded as a success if it was acknowledged, else as an error; a broadcast that went out is not. */
  lemma TxRecords(l: Link, dest: Byte, buf: seq<Byte>, sent: bool)
    ensures PacketsSinceChange(ServiceTx(l, dest, buf, sent).trace)
         == PacketsSinceChange(l.trace) + if buf == [] || (sent && dest == BROADCAST_ADDRESS) then [] else [sent]
  {
    if buf != [] {
      var acked := sent && dest != BROADCAST_ADDRESS;
      var onAir := Record(l, Transmitted(buf, dest));
      var counted := if acked || !sent then UpdatePacketErrorFraction(onAir, acked) else onAir;
      assert PacketsSinceChange(onAir.trace) == PacketsSinceChange(l.trace);
      assert ServiceTx(l, dest, buf, sent).trace == Snoc(counted.trace, TxInd(buf, dest, acked));
    }
  }

  lemma ExecuteSound(l: Link, cmd: seq<Byte>)
    requires SoundLink(l)
    ensures SoundLink(ExecuteCommand(l, cmd))
  {
    if |cmd| >= 2 {
      var d := ToByte(cmd[1] - ZERO);
      var v, p := ToByte(CommandValue(cmd)), ToSByte(CommandValue(cmd));
      SettersSound(l, Quad(d, d, v, p));
    }
  }

  // ---------- Nodes ----------

  lemma LinkTimerSound(n: Node, now: nat)
    requires Sound(n)
    ensures var polled := UpdateTimers(n, now);
      var m := ServiceLinkTimer(polled);
      var fires := n.linkTimer.Fires(Wrap32(now));
      && SoundLink(m.link)
      && m == polled.(link := m.link, linkTimer := polled.linkTimer.ClearDone())
      && m.link.cur == (if fires then n.link.prev else n.link.cur)
      && m.link.prev == (if fires then n.link.cur else n.link.prev)
      && Successes(m.link) == (if fires then 0 else Successes(n.link))
  {
    if n.linkTimer.Fires(Wrap32(now)) {
      var m := ServiceLinkTimer(UpdateTimers(n, now));
      assert m.link == ApplyQuad(n.link, n.link.prev);
      ApplySound(n.link, n.link.prev);
      ApplyValid(n.link, n.link.prev);
    }
  }

  lemma HeartbeatTimerSound(n: Node, sent: bool)
    requires SoundLink(n.link)
    ensures var m := ServiceHeartbeatTimer(n, sent);
      && SoundLink(m.link)
      && m == n.(link := m.link, heartbeatTimer := n.heartbeatTimer.ClearDone())
      && m.link.cur == n.link.cur && m.link.prev == n.link.prev && Successes(m.link) == Successes(n.link)
  {
    TxSound(n.link, BROADCAST_ADDRESS, [MSG_HEARTBEAT_REQ, n.address], sent);
  }

  /** Polling: the rollback timer swaps the settings exactly when it fires, and nothing else moves them. */
  lemma TimersSound(n: Node, t: Tick)
    requires Sound(n)
    ensures var m := ServiceTimers(n, t);
      var fires := n.linkTimer.Fires(Wrap32(t.now));
      && Sound(m)
      && m == n.(now := t.now, link := m.link,
                 linkTimer := n.linkTimer.Update(Wrap32(t.now)).ClearDone(),
                 heartbeatTimer := n.heartbeatTimer.Update(Wrap32(t.now)).ClearDone())
      && m.link.cur == (if fires then n.link.prev else n.link.cur)
      && m.link.prev == (if fires then n.link.cur else n.link.prev)
      && Successes(m.link) == (if fires then 0 else Successes(n.link))
  {
    LinkTimerSound(n, t.now);
    HeartbeatTimerSound(ServiceLinkTimer(UpdateTimers(n, t.now)), t.sent);
  }

  lemma ArmSound(n: Node, timeout: Word32, t: Tick)
    requires Sound(n) && (timeout == LINK_CHANGE_TIMEOUT_MILLIS || timeout == TRUST_TIMEOUT_MILLIS)
    ensures var m := ArmLinkTimer(n, timeout, t);
      && Sound(m)
      && m == n.(now := t.now, link := m.link,
                 linkTimer := TimerState(timeout, Wrap32(t.now), false, true, false),
                 heartbeatTimer := n.heartbeatTimer.Update(Wrap32(t.now)).ClearDone())
      && m.link.cur == n.link.cur && m.link.prev == n.link.prev
      && Successes(m.link) == Successes(n.link)
  {
    TimersSound(n.(linkTimer := n.linkTimer.Pause().ClearDone().SetTimeout(timeout)), t);
  }

  lemma AcceptSound(n: Node, p: Packet)
    requires Sound(n)
    ensures Sound(AcceptPacket(n, p))
  {
    RecordSound(n.link, RxInd(p.payload, p.src));
  }

  lemma HandleSound(n: Node, src: Byte, t: Tick, sent: bool)
    requires Sound(n)
    ensures var m := HandlePacket(n, src, t, sent);
      && Sound(m) && m.address == n.address
      && m.now == (if n.rx[0] == MSG_LINK_CHANGE_RSP then t.now else n.now)
  {
    if n.rx[0] == MSG_LINK_CHANGE_REQ {
      ApplySound(n.link, QuadFrom(n.rx));
      var started := StartLinkChange(n.link, src, QuadFrom(n.rx));
      RecordSound(ApplyQuad(n.link, QuadFrom(n.rx)), started.trace.last);
      ApplySound(started, started.prev);
    } else if n.rx[0] == MSG_LINK_CHANGE_RSP {
      ArmSound(n, TRUST_TIMEOUT_MILLIS, t);
    } else if n.rx[0] == MSG_HEARTBEAT_REQ {
      TxSound(n.link, src, [MSG_HEARTBEAT_RSP, n.address], sent);
    }
  }

  /** A received packet is a success; it stops a pending rollback exactly when it is at least the fourth. */
  lemma FinishSound(n: Node, t: Tick)
    requires Sound(n)
    ensures var m := FinishPacket(n, t);
      && Sound(m)
      && m.link.cur == n.link.cur && m.link.prev == n.link.prev
      && Successes(m.link) == Successes(n.link) + 1
      && (m.linkTimer.started <==>
            n.linkTimer.started && Successes(m.link) <= SUCCESSFUL_PACKETS_BEFORE_LINK_IS_TRUSTED)
      && m.linkTimer == (if !n.linkTimer.started then n.linkTimer
                         else if m.linkTimer.started then n.linkTimer.Reset(Wrap32(n.now))
                         else n.linkTimer.Pause().Reset(Wrap32(t.now)))
      && m == n.(link := m.link, now := m.now, linkTimer := m.linkTimer, heartbeatTimer := m.heartbeatTimer)
      && (if n.linkTimer.started && !m.linkTimer.started
          then m.now == t.now && m.heartbeatTimer == n.heartbeatTimer.Update(Wrap32(t.now)).ClearDone()
          else m.now == n.now && m.heartbeatTimer == n.heartbeatTimer)
  {
    UpdateSound(n.link, true);
    var counted := n.(link := UpdatePacketErrorFraction(n.link, true));
    if counted.linkTimer.started && Trusts(counted.link) {
      TimersSound(counted.(linkTimer := counted.linkTimer.Reset(Wrap32(counted.now)).Pause().ClearDone()), t);
    }
  }

  lemma SerialSound(n: Node, c: Byte)
    requires Sound(n)
    ensures Sound(SerialChar(n, c))
  {
    ExecuteSound(n.link, n.cmd);
  }

  lemma RequestSound(n: Node, dest: Byte, q: Quad, acked: bool, t: Tick)
    requires Sound(n)
    ensures Sound(LinkChangeReq(n, dest, q, acked, t))
  {
    RecordSound(n.link, Transmitted(QuadMessage(MSG_LINK_CHANGE_REQ, q), dest));
    var asked := SendLinkChangeReq(n, dest, q);
    if acked {
      ApplySound(asked.link, q);
      ArmSound(asked.(link := ApplyQuad(asked.link, q)), LINK_CHANGE_TIMEOUT_MILLIS, t);
    }
  }

  lemma StepSound(n: Node, e: Event)
    requires Sound(n)
    ensures Sound(Step(n, e))
  {
    hide SoundLink;
    hide ServiceTimers;
    hide AcceptPacket;
    hide HandlePacket;
    hide FinishPacket;
    hide ServiceTx;
    hide LinkChangeReq;
    hide SerialChar;
    match e
    case Timers(t) => TimersSound(n, t);
    case Receive(p, h, sent, t) =>
      AcceptSound(n, p);
      HandleSound(AcceptPacket(n, p), p.src, h, sent);
      FinishSound(HandlePacket(AcceptPacket(n, p), p.src, h, sent), t);
    case Transmit(dest, buf, sent) => TxSound(n.link, dest, buf, sent);
    case TransmitTx(dest, sent) => TxSound(n.link, dest, n.tx, sent);
    case Request(dest, q, acked, t) => RequestSound(n, dest, q, acked, t);
    case ChangeSpreadingFactor(sf) => SettersSound(n.link, Quad(sf, 0, 0, 0));
    case ChangeBandwidth(bw) => SettersSound(n.link, Quad(0, bw, 0, 0));
    case ChangeFrequencyChannel(ch) => SettersSound(n.link, Quad(0, 0, ch, 0));
    case ChangeTxPower(power) => SettersSound(n.link, Quad(0, 0, 0, power));
    case Serial(c) => SerialSound(n, c);
    case StartHeartbeats =>
    case StopHeartbeats =>
  }

  /**
   * After setup, over every run: settings to fall back to are valid, the radio is programmed to the current ones and
   * the user was last told of exactly those; the counters are those of the packets since; no timer flag is left set.
   */
  lemma {:induction false} AlwaysSound(n: Node, events: seq<Event>)
    requires Sound(n)
    ensures Sound(Run(n, events))
    decreases |events|
  {
    if events == [] {
    } else {
      StepSound(n, events[0]);
      AlwaysSound(Step(n, events[0]), events[1..]);
    }
  }

  // ---------- Clock readings ----------

  /** A clock reading at `to` follows one at `from`, at most `gap` later if there is a gap. */
  predicate Reads(from: nat, to: nat, gap: Option<nat>) {
    from <= to && (gap.Some? ==> to <= from + gap.value)
  }

  /** When a node that has handled a packet last read its clock: only a response makes it read the clock again. */
  function HandledAt(n: Node, p: Packet, h: Tick): nat {
    if AcceptPacket(n, p).rx[0] == MSG_LINK_CHANGE_RSP then h.now else n.now
  }

  /** The clock readings of a step follow the node's last one, and each other, within the gap. */
  predicate ReadsInOrder(n: Node, e: Event, gap: Option<nat>) {
    match e
    case Timers(t) => Reads(n.now, t.now, gap)
    case Receive(p, h, _, t) => Reads(n.now, h.now, gap) && Reads(HandledAt(n, p, h), t.now, gap)
    case Request(_, _, acked, t) => acked ==> Reads(n.now, t.now, gap)
    case _ => true
  }

  // ---------- Public calls that are more than one step ----------

  lemma ServiceRxIsRun(n: Node, first: Tick, p: Packet, h: Tick, sent: bool, t: Tick)
    ensures ServiceRx(n, first, Some(p), h, sent, t) == Run(n, [Timers(first), Receive(p, h, sent, t)])
    ensures ServiceRx(n, first, None, h, sent, t) == Run(n, [Timers(first)])
  {
    hide ServiceTimers;
    hide ReceivePacket;
    var poll, packet := Timers(first), Receive(p, h, sent, t);
    assert [poll, packet][1..] == [packet] && [packet][1..] == [] && [poll][1..] == [];
    assert Run(Step(n, poll), [packet]) == Run(Step(Step(n, poll), packet), []);
    assert Run(n, [poll, packet]) == Run(Step(n, poll), [packet]);
  }

  lemma {:induction false} SerialRunIsRun(n: Node, s: seq<Byte>)
    ensures SerialRun(n, s) == Run(n, seq(|s|, i requires 0 <= i < |s| => Event.Serial(s[i])))
    decreases |s|
  {
    var events := seq(|s|, i requires 0 <= i < |s| => Event.Serial(s[i]));
    if s == [] {
    } else {
      var rest := s[1..];
      SerialRunIsRun(SerialChar(n, s[0]), rest);
      assert events[1..] == seq(|rest|, i requires 0 <= i < |rest| => Event.Serial(rest[i]));
    }
  }
}
