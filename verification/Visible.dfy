/**
 * Everything a node does that can be seen: what it puts on the air, what it tells its user, which outcomes it records,
 * in which order, and what it writes to the radio. The specification here is in plain numbers, those of the air
 * protocol, and independent of the functions that compute it.
 */
module Visible {
  import opened Platform
  import opened Settings
  import opened Timer
  import opened Node
  import opened NodeInvariants

  /** A trace as a sequence, latest last. */
  function Log(trace: Trace): seq<Act> {
    match trace
    case Empty => []
    case Snoc(before, last) => Log(before) + [last]
  }

  /** Between `l` and `m` the node has done exactly `acts`, in this order. */
  predicate Adds(l: Link, m: Link, acts: seq<Act>) {
    Log(m.trace) == Log(l.trace) + acts
  }

  lemma AddsBoth(l: Link, m: Link, k: Link, first: seq<Act>, rest: seq<Act>)
    requires Adds(l, m, first) && Adds(m, k, rest)
    ensures Adds(l, k, first + rest)
  {
    assert Log(l.trace) + first + rest == Log(l.trace) + (first + rest);
  }

  // ---------- The radio ----------

  /** The 500 kHz channels of the US 902 to 928 MHz band: eight uplinks, then eight downlinks. */
  lemma ChannelPlan(ch: Byte)
    requires ch < 16
    ensures AcceptsChannel(ch)
    ensures FrequencyMHz(ch) == if ch < 8 then 903.0 + 1.6 * ch as real else 923.3 + 0.6 * (ch - 8) as real
    ensures 902.0 < FrequencyMHz(ch) < 928.0
  {
    assert |FREQUENCY_CHANNEL_TABLE| == 16;
    assert FREQUENCY_CHANNEL_TABLE[ch] == if ch < 8 then 9030 + 16 * ch else 9233 + 6 * (ch - 8);
  }

  /** Each setter writes its own number to the radio, and only if it exists. */
  lemma SettersProgram(l: Link, q: Quad)
    ensures SetSpreadingFactor(l, q.sf).radio
         == if q.sf < 6 then l.radio.(spreadingFactor := 7 + q.sf) else l.radio
    ensures SetBandwidth(l, q.bw).radio
         == if q.bw < 3 then l.radio.(bandwidthHz := [125000, 250000, 500000][q.bw]) else l.radio
    ensures SetFrequencyChannel(l, q.ch).radio
         == if q.ch >= 16 then l.radio
            else l.radio.(frequencyMHz :=
              if q.ch < 8 then 903.0 + 1.6 * q.ch as real else 923.3 + 0.6 * (q.ch - 8) as real)
    ensures SetTxPower(l, q.power).radio == if 2 <= q.power <= 20 then l.radio.(powerDbm := q.power) else l.radio
  {
    if q.ch < 16 {
      ChannelPlan(q.ch);
    }
    assert q.sf < 6 ==> SPREADING_FACTOR_TABLE[q.sf] == 7 + q.sf;
  }

  /** So over every run the radio is programmed to the numbers that the current settings stand for. */
  lemma RadioProgrammed(n: Node, events: seq<Event>)
    requires Sound(n)
    ensures var l := Run(n, events).link;
      && l.cur.sf < 6 && l.radio.spreadingFactor == 7 + l.cur.sf
      && l.cur.bw < 3 && l.radio.bandwidthHz == [125000, 250000, 500000][l.cur.bw]
      && l.cur.ch < 16 && 902.0 < l.radio.frequencyMHz < 928.0
      && l.radio.frequencyMHz
           == (if l.cur.ch < 8 then 903.0 + 1.6 * l.cur.ch as real else 923.3 + 0.6 * (l.cur.ch - 8) as real)
      && 2 <= l.cur.power <= 20 && l.radio.powerDbm == l.cur.power
  {
    AlwaysSound(n, events);
    var l := Run(n, events).link;
    assert SettingsMatch(l);
    ChannelPlan(l.cur.ch);
    assert SPREADING_FACTOR_TABLE[l.cur.sf] == 7 + l.cur.sf;
  }

  // ---------- Sends ----------

  /**
   * A send: the message, its outcome, the user told. A broadcast is never acknowledged, and records an outcome only if
   * the send failed.
   */
  function SendActs(buf: seq<Byte>, dest: Byte, ok: bool): seq<Act> {
    if buf == [] then []
    else if dest == 255 && ok then [Transmitted(buf, dest), TxInd(buf, dest, false)]
    else [Transmitted(buf, dest), Counted(ok), TxInd(buf, dest, ok)]
  }

  lemma SendAdds(l: Link, dest: Byte, buf: seq<Byte>, ok: bool)
    ensures Adds(l, ServiceTx(l, dest, buf, ok), SendActs(buf, dest, ok))
  {
    if buf != [] {
      var acked := ok && dest != BROADCAST_ADDRESS;
      var onAir := Record(l, Transmitted(buf, dest));
      var counted := if acked || !ok then UpdatePacketErrorFraction(onAir, acked) else onAir;
      var outcome := if acked || !ok then [Counted(ok)] else [];
      assert Adds(l, onAir, [Transmitted(buf, dest)]);
      assert Adds(onAir, counted, outcome);
      AddsBoth(l, onAir, counted, [Transmitted(buf, dest)], outcome);
      assert Adds(counted, ServiceTx(l, dest, buf, ok), [TxInd(buf, dest, acked)]);
      AddsBoth(l, counted, ServiceTx(l, dest, buf, ok), [Transmitted(buf, dest)] + outcome,
        [TxInd(buf, dest, acked)]);
    }
  }

  /**
   * A text is sent as it was typed and the buffer emptied; the outcome is recorded as the radio answers it, as an error
   * if nothing acknowledged it, and the user is told the same. A broadcast counts only if it could not be sent.
   */
  lemma TextIsRecorded(n: Node, dest: Byte, ok: bool)
    requires n.tx != []
    ensures var m := SendTxMessage(n, dest, ok);
      && m == n.(link := m.link, tx := [])
      && m.link.cur == n.link.cur && m.link.prev == n.link.prev
      && m.link.trace.Snoc? && m.link.trace.last == TxInd(n.tx, dest, ok && dest != 255)
      && PacketsSinceChange(m.link.trace)
           == PacketsSinceChange(n.link.trace) + (if dest == 255 && ok then [] else [ok])
      && m.link.packetErrorCount == n.link.packetErrorCount + (if ok then 0 else 1)
      && Adds(n.link, m.link, SendActs(n.tx, dest, ok))
  {
    SendAdds(n.link, dest, n.tx, ok);
    TxRecords(n.link, dest, n.tx, ok);
  }

  // ---------- Settings ----------

  /** The user is told of the settings after each accepted field: spreading factor, bandwidth, power, channel. */
  function Tells(cur: Quad, q: Quad): seq<Act> {
    var a := if q.sf < 6 then cur.(sf := q.sf) else cur;
    var b := if q.bw < 3 then a.(bw := q.bw) else a;
    var c := if 2 <= q.power <= 20 then b.(power := q.power) else b;
    (if q.sf < 6 then [Indicated(a)] else [])
    + (if q.bw < 3 then [Indicated(b)] else [])
    + (if 2 <= q.power <= 20 then [Indicated(c)] else [])
    + (if q.ch < 16 then [Indicated(c.(ch := q.ch))] else [])
  }

  lemma SettersAdd(l: Link, q: Quad)
    ensures Adds(l, SetSpreadingFactor(l, q.sf), if q.sf < 6 then [Indicated(l.cur.(sf := q.sf))] else [])
    ensures Adds(l, SetBandwidth(l, q.bw), if q.bw < 3 then [Indicated(l.cur.(bw := q.bw))] else [])
    ensures Adds(l, SetFrequencyChannel(l, q.ch), if q.ch < 16 then [Indicated(l.cur.(ch := q.ch))] else [])
    ensures Adds(l, SetTxPower(l, q.power), if 2 <= q.power <= 20 then [Indicated(l.cur.(power := q.power))] else [])
  {
    assert |FREQUENCY_CHANNEL_TABLE| == 16;
  }

  /** An accepted value becomes the current one, and what was current becomes what to go back to. */
  lemma SettersSet(l: Link, q: Quad)
    ensures var m := SetSpreadingFactor(l, q.sf);
      if q.sf < 6 then m.cur == l.cur.(sf := q.sf) && m.prev == l.prev.(sf := l.cur.sf) else m == l
    ensures var m := SetBandwidth(l, q.bw);
      if q.bw < 3 then m.cur == l.cur.(bw := q.bw) && m.prev == l.prev.(bw := l.cur.bw) else m == l
    ensures var m := SetFrequencyChannel(l, q.ch);
      if q.ch < 16 then m.cur == l.cur.(ch := q.ch) && m.prev == l.prev.(ch := l.cur.ch) else m == l
    ensures var m := SetTxPower(l, q.power);
      if 2 <= q.power <= 20
      then m.cur == l.cur.(power := q.power) && m.prev == l.prev.(power := l.cur.power)
      else m == l
  {
    assert |FREQUENCY_CHANNEL_TABLE| == 16;
  }

  lemma ApplyAdds(l: Link, q: Quad)
    ensures Adds(l, ApplyQuad(l, q), Tells(l.cur, q))
  {
    var a := SetSpreadingFactor(l, q.sf);
    var b := SetBandwidth(a, q.bw);
    var c := SetTxPower(b, q.power);
    SettersAdd(l, q);
    SettersAdd(a, q);
    SettersAdd(b, q);
    SettersAdd(c, q);
    SettersSet(l, q);
    SettersSet(a, q);
    SettersSet(b, q);
    hide SetSpreadingFactor;
    hide SetBandwidth;
    hide SetTxPower;
    hide SetFrequencyChannel;
    var one := if q.sf < 6 then [Indicated(a.cur)] else [];
    var two := if q.bw < 3 then [Indicated(b.cur)] else [];
    var three := if 2 <= q.power <= 20 then [Indicated(c.cur)] else [];
    var four := if q.ch < 16 then [Indicated(c.cur.(ch := q.ch))] else [];
    AddsBoth(l, a, b, one, two);
    AddsBoth(l, b, c, one + two, three);
    AddsBoth(l, c, ApplyQuad(l, q), one + two + three, four);
  }

  /** A node fresh from setup: what it is, and that its user has been told of its settings four times. */
  lemma PowerOn(address: Byte, radio: Programmed, rx: Buffer)
    ensures var n := Setup(Boot(address, radio, rx));
      && n.link.cur == n.link.prev == Quad(0, 2, 0, 2)
      && n.link.radio == Programmed(7, 500000, 903.0, 2)
      && n.link.packetCount == 0 == n.link.packetErrorCount && n.link.packetErrorFraction == 0.0
      && Log(n.link.trace) == seq(4, i => Indicated(Quad(0, 2, 0, 2)))
      && n.address == address && n.now == 0 && n.rx == rx && n.tx == [] && n.cmd == [] && !n.commandMode
      && n.linkTimer == TimerState(3000, 0, false, false, false)
      && n.heartbeatTimer == TimerState(7000, 0, true, false, false)
  {
    ApplyAdds(Boot(address, radio, rx).link, DEFAULT_QUAD);
    assert Tells(DEFAULT_QUAD, DEFAULT_QUAD) == seq(4, i => Indicated(Quad(0, 2, 0, 2)));
  }

  // ---------- Polls ----------

  /** The heartbeat of a poll at which that timer fires. */
  function Due(n: Node, t: Tick): seq<Act> {
    if n.heartbeatTimer.Fires(Wrap32(t.now)) then SendActs([7, n.address], 255, t.sent) else []
  }

  /** A poll at which the rollback timer fires goes back first, and only then sends a heartbeat that is due. */
  function PollActs(n: Node, t: Tick): seq<Act> {
    (if n.linkTimer.Fires(Wrap32(t.now)) then Tells(n.link.cur, n.link.prev) else []) + Due(n, t)
  }

  lemma PollAdds(n: Node, t: Tick)
    requires Sound(n)
    ensures Adds(n.link, ServiceTimers(n, t).link, PollActs(n, t))
  {
    hide ServiceTx;
    hide ApplyQuad;
    hide SoundLink;
    var polled := UpdateTimers(n, t.now);
    var linked := ServiceLinkTimer(polled);
    var back := if n.linkTimer.Fires(Wrap32(t.now)) then Tells(n.link.cur, n.link.prev) else [];
    ApplyAdds(n.link, n.link.prev);
    assert Adds(n.link, linked.link, back);
    SendAdds(linked.link, 255, [7, n.address], t.sent);
    assert linked.heartbeatTimer.done <==> n.heartbeatTimer.Fires(Wrap32(t.now));
    assert Adds(linked.link, ServiceTimers(n, t).link, Due(n, t));
    AddsBoth(n.link, linked.link, ServiceTimers(n, t).link, back, Due(n, t));
  }

  /**
   * When both timers fire in one poll, the user is told of the settings gone back to before the heartbeat goes out, and
   * the outcome of the heartbeat is the first that is recorded on them.
   */
  lemma RollbackComesFirst(n: Node, t: Tick)
    requires Sound(n) && n.linkTimer.Fires(Wrap32(t.now)) && n.heartbeatTimer.Fires(Wrap32(t.now))
    ensures var m := ServiceTimers(n, t);
      var told := Tells(n.link.cur, n.link.prev);
      && |told| == 4 && told[3] == Indicated(n.link.prev)
      && Adds(n.link, m.link, told + SendActs([7, n.address], 255, t.sent))
      && PacketsSinceChange(m.link.trace) == if t.sent then [] else [false]
  {
    PollAdds(n, t);
    var polled := UpdateTimers(n, t.now);
    var back := ApplyQuad(n.link, n.link.prev);
    ApplyAny(n.link, n.link.prev);
    assert PacketsSinceChange(back.trace) == [];
    TxRecords(back, 255, [7, n.address], t.sent);
  }

  lemma ArmAdds(n: Node, timeout: Word32, t: Tick)
    requires Sound(n) && (timeout == LINK_CHANGE_TIMEOUT_MILLIS || timeout == TRUST_TIMEOUT_MILLIS)
    ensures Adds(n.link, ArmLinkTimer(n, timeout, t).link, Due(n, t))
  {
    hide SoundLink;
    hide ServiceTimers;
    PollAdds(n.(linkTimer := n.linkTimer.Pause().ClearDone().SetTimeout(timeout)), t);
  }

  // ---------- Requests ----------

  /** What a client does that asks `dest` for `q`. */
  function RequestActs(n: Node, dest: Byte, q: Quad, acked: bool, t: Tick): seq<Act> {
    [Transmitted([3, q.sf, q.bw, q.ch, ToByte(q.power)], dest)]
    + if acked then Tells(n.link.cur, q) + Due(n, t) else []
  }

  /**
   * A request goes on the air once, to its destination, with its settings. Unacknowledged, that is all that happens;
   * acknowledged, nothing else is sent but the heartbeat of the poll that arms the timer, if it is due.
   */
  lemma RequestAdds(n: Node, dest: Byte, q: Quad, acked: bool, t: Tick)
    requires Sound(n)
    ensures var m := LinkChangeReq(n, dest, q, acked, t);
      && Adds(n.link, m.link, RequestActs(n, dest, q, acked, t))
      && (!acked ==> m == n.(link := n.link.(trace := m.link.trace)))
  {
    hide ApplyQuad;
    hide ArmLinkTimer;
    var asked := SendLinkChangeReq(n, dest, q);
    var sent := [Transmitted([3, q.sf, q.bw, q.ch, ToByte(q.power)], dest)];
    assert Adds(n.link, asked.link, sent);
    if acked {
      RecordSound(n.link, sent[0]);
      ApplySound(asked.link, q);
      ApplyAdds(asked.link, q);
      var applied := asked.(link := ApplyQuad(asked.link, q));
      ArmAdds(applied, LINK_CHANGE_TIMEOUT_MILLIS, t);
      var armed := ArmLinkTimer(applied, LINK_CHANGE_TIMEOUT_MILLIS, t);
      AddsBoth(asked.link, applied.link, armed.link, Tells(n.link.cur, q), Due(n, t));
      AddsBoth(n.link, asked.link, armed.link, sent, Tells(n.link.cur, q) + Due(n, t));
    }
  }

  // ---------- Packets ----------

  /** What a node does to answer the message in its receive buffer, from `src`. Only three kinds make it do anything. */
  function AnswerActs(n: Node, src: Byte, h: Tick, sent: bool): seq<Act> {
    if n.rx[0] == 3 then
      var q := Quad(n.rx[1], n.rx[2], n.rx[3], ToSByte(n.rx[4]));
      var e := Effective(n.link.cur, q);
      Tells(n.link.cur, q) + [Transmitted([4, e.sf, e.bw, e.ch, ToByte(e.power)], src)]
      + if sent then [] else Tells(e, Fallback(n.link.cur, n.link.prev, q))
    else if n.rx[0] == 4 then Due(n, h)
    else if n.rx[0] == 7 then SendActs([8, n.address], src, sent)
    else []
  }

  lemma ServeAdds(l: Link, src: Byte, q: Quad, sent: bool)
    ensures var e := Effective(l.cur, q);
      Adds(l, EndLinkChange(StartLinkChange(l, src, q), sent),
        Tells(l.cur, q) + [Transmitted([4, e.sf, e.bw, e.ch, ToByte(e.power)], src)]
        + if sent then [] else Tells(e, Fallback(l.cur, l.prev, q)))
  {
    hide ApplyQuad;
    var e := Effective(l.cur, q);
    var response := [Transmitted([4, e.sf, e.bw, e.ch, ToByte(e.power)], src)];
    var changed, started := ApplyQuad(l, q), StartLinkChange(l, src, q);
    ApplyAny(l, q);
    ApplyAdds(l, q);
    assert Adds(changed, started, response);
    AddsBoth(l, changed, started, Tells(l.cur, q), response);
    if !sent {
      ApplyAdds(started, started.prev);
      AddsBoth(l, started, RollBack(started), Tells(l.cur, q) + response, Tells(e, started.prev));
    }
  }

  lemma HandleAdds(n: Node, src: Byte, h: Tick, sent: bool)
    requires Sound(n)
    ensures Adds(n.link, HandlePacket(n, src, h, sent).link, AnswerActs(n, src, h, sent))
  {
    hide SoundLink;
    if n.rx[0] == 3 {
      ServeAdds(n.link, src, QuadFrom(n.rx), sent);
    } else if n.rx[0] == 4 {
      ArmAdds(n, TRUST_TIMEOUT_MILLIS, h);
    } else if n.rx[0] == 7 {
      SendAdds(n.link, src, [8, n.address], sent);
    }
  }

  /** A packet is a success. If it brings trust, the timers are polled once more. */
  lemma FinishAdds(n: Node, t: Tick)
    requires Sound(n)
    ensures var m := FinishPacket(n, t);
      Adds(n.link, m.link, [Counted(true)] + if n.linkTimer.started && !m.linkTimer.started then Due(n, t) else [])
  {
    hide ServiceTimers;
    hide SoundLink;
    FinishSound(n, t);
    UpdateSound(n.link, true);
    var counted := n.(link := UpdatePacketErrorFraction(n.link, true));
    assert Adds(n.link, counted.link, [Counted(true)]);
    if counted.linkTimer.started && Trusts(counted.link) {
      var idle := counted.(linkTimer := counted.linkTimer.Reset(Wrap32(counted.now)).Pause().ClearDone());
      PollAdds(idle, t);
      AddsBoth(n.link, counted.link, ServiceTimers(idle, t).link, [Counted(true)], Due(n, t));
    }
  }

  /** What a packet makes a node do, where `trusted` says whether it ends a pending change. */
  function ReceiveActs(n: Node, p: Packet, h: Tick, sent: bool, t: Tick, trusted: bool): seq<Act> {
    var a := n.(rx := Store(n.rx, p.payload));
    var handled := if a.rx[0] == 4 then a.(heartbeatTimer := a.heartbeatTimer.Update(Wrap32(h.now)).ClearDone()) else a;
    [RxInd(p.payload, p.src)] + AnswerActs(a, p.src, h, sent)
    + ([Counted(true)] + if trusted then Due(handled, t) else [])
  }

  lemma HandleTimers(n: Node, src: Byte, h: Tick, sent: bool)
    requires Sound(n)
    ensures var m := HandlePacket(n, src, h, sent);
      && m.address == n.address
      && (m.linkTimer.started <==> n.linkTimer.started || n.rx[0] == 4)
      && m.heartbeatTimer
           == if n.rx[0] == 4 then n.heartbeatTimer.Update(Wrap32(h.now)).ClearDone() else n.heartbeatTimer
  {
    hide SoundLink;
    hide ServiceTimers;
    if n.rx[0] == 4 {
      ArmSound(n, TRUST_TIMEOUT_MILLIS, h);
    }
  }

  lemma ReceiveAdds(n: Node, p: Packet, h: Tick, sent: bool, t: Tick)
    requires Sound(n)
    ensures var m := ReceivePacket(n, p, h, sent, t);
      var pending := n.linkTimer.started || Store(n.rx, p.payload)[0] == 4;
      && Adds(n.link, m.link, ReceiveActs(n, p, h, sent, t, pending && !m.linkTimer.started))
      && (m.linkTimer.started <==> pending && Successes(m.link) <= 3)
  {
    hide HandlePacket;
    hide FinishPacket;
    hide SoundLink;
    var a := AcceptPacket(n, p);
    assert AnswerActs(a, p.src, h, sent) == AnswerActs(n.(rx := Store(n.rx, p.payload)), p.src, h, sent);
    hide AnswerActs;
    AcceptSound(n, p);
    HandleSound(a, p.src, h, sent);
    HandleAdds(a, p.src, h, sent);
    HandleTimers(a, p.src, h, sent);
    var handled := HandlePacket(a, p.src, h, sent);
    FinishSound(handled, t);
    FinishAdds(handled, t);
    var m := FinishPacket(handled, t);
    var told, answer := [RxInd(p.payload, p.src)], AnswerActs(a, p.src, h, sent);
    var trusted := handled.linkTimer.started && !m.linkTimer.started;
    assert Adds(n.link, a.link, told);
    AddsBoth(n.link, a.link, handled.link, told, answer);
    AddsBoth(n.link, handled.link, m.link, told + answer,
      [Counted(true)] + if trusted then Due(handled, t) else []);
  }

  /**
   * A message of any other kind, a heartbeat response among them, is never answered and changes no settings. It is one
   * success, and ends a pending change if at least three had gone before. Only then are the timers polled.
   */
  lemma OtherMessagesOnlyCount(n: Node, p: Packet, h: Tick, sent: bool, t: Tick)
    requires Sound(n) && p.payload != [] && p.payload[0] != 3 && p.payload[0] != 4 && p.payload[0] != 7
    ensures var m := ReceivePacket(n, p, h, sent, t);
      var trusted := n.linkTimer.started && Successes(n.link) >= 3;
      && Adds(n.link, m.link, [RxInd(p.payload, p.src), Counted(true)] + if trusted then Due(n, t) else [])
      && m.link.cur == n.link.cur && m.link.prev == n.link.prev
      && Successes(m.link) == Successes(n.link) + 1
      && (m.linkTimer.started <==> n.linkTimer.started && !trusted)
      && (m.linkTimer.started ==> m.linkTimer == n.linkTimer.Reset(Wrap32(n.now)))
      && (!trusted ==> m == n.(link := m.link, linkTimer := m.linkTimer, rx := m.rx))
      && m.rx[..|p.payload|] == p.payload && m.rx[|p.payload|..] == n.rx[|p.payload|..]
  {
    hide FinishPacket;
    hide SoundLink;
    ReceiveAdds(n, p, h, sent, t);
    AcceptSound(n, p);
    var a := AcceptPacket(n, p);
    assert a.rx[0] == p.payload[0];
    assert HandlePacket(a, p.src, h, sent) == a;
    FinishSound(a, t);
    assert [RxInd(p.payload, p.src)] + [] + [Counted(true)] == [RxInd(p.payload, p.src), Counted(true)];
  }

  /** The clock and the timers of a node, as a packet leaves them. */
  predicate TimersAre(m: Node, now: nat, link: TimerState, heartbeat: TimerState) {
    m.now == now && m.linkTimer == link && m.heartbeatTimer == heartbeat
  }

  lemma ServeSets(l: Link, src: Byte, q: Quad, sent: bool)
    requires SoundLink(l)
    ensures var m := EndLinkChange(StartLinkChange(l, src, q), sent);
      var switched, back := Effective(l.cur, q), Fallback(l.cur, l.prev, q);
      if sent then m.cur == switched && m.prev == back else m.cur == back && m.prev == switched
  {
    hide ApplyQuad;
    ApplyAny(l, q);
    ApplySound(l, q);
    var started := StartLinkChange(l, src, q);
    ApplyValid(started, started.prev);
  }

  /**
   * What a packet does besides what can be seen. A request switches settings, and back again if the response to it is
   * not acknowledged; a response starts the timer for 24000 ms; every packet gives a change that stays pending as long
   * again, and one that brings trust stops the timer.
   */
  lemma ReceiveState(n: Node, p: Packet, h: Tick, sent: bool, t: Tick)
    requires Sound(n)
    ensures var m := ReceivePacket(n, p, h, sent, t);
      var rx := Store(n.rx, p.payload);
      var q := Quad(rx[1], rx[2], rx[3], ToSByte(rx[4]));
      var switched, back := Effective(n.link.cur, q), Fallback(n.link.cur, n.link.prev, q);
      var now, link, beat :=
        if rx[0] == 4 then h.now else n.now,
        if rx[0] == 4 then TimerState(24000, Wrap32(h.now), false, true, false) else n.linkTimer,
        if rx[0] == 4 then n.heartbeatTimer.Update(Wrap32(h.now)).ClearDone() else n.heartbeatTimer;
      && m == n.(link := m.link, now := m.now, linkTimer := m.linkTimer, heartbeatTimer := m.heartbeatTimer, rx := rx)
      && m.link.cur == (if rx[0] != 3 then n.link.cur else if sent then switched else back)
      && m.link.prev == (if rx[0] != 3 then n.link.prev else if sent then back else switched)
      && (if !link.started then TimersAre(m, now, link, beat)
          else if Successes(m.link) <= 3 then TimersAre(m, now, link.Reset(Wrap32(now)), beat)
          else TimersAre(m, t.now, link.Pause().Reset(Wrap32(t.now)), beat.Update(Wrap32(t.now)).ClearDone()))
  {
    hide FinishPacket;
    hide SoundLink;
    hide ServiceTimers;
    hide ApplyQuad;
    var a := AcceptPacket(n, p);
    AcceptSound(n, p);
    HandleSound(a, p.src, h, sent);
    if a.rx[0] == 3 {
      ServeSets(a.link, p.src, QuadFrom(a.rx), sent);
    } else if a.rx[0] == 4 {
      ArmSound(a, TRUST_TIMEOUT_MILLIS, h);
    } else if a.rx[0] == 7 {
      TxSound(a.link, p.src, [MSG_HEARTBEAT_RSP, a.address], sent);
    }
    FinishSound(HandlePacket(a, p.src, h, sent), t);
  }

  // ---------- Every step, and every run ----------

  /** A character as a digit, whether it is one or not. */
  function Digit(c: Byte): int {
    c - 48
  }

  /** What the command line `cmd` makes a node do. Any other letter, and a line of one character, does nothing. */
  function CommandActs(cur: Quad, cmd: seq<Byte>): seq<Act> {
    if |cmd| < 2 then []
    else
      var first := Digit(cmd[1]);
      var number := if |cmd| == 2 then first else 10 * first + Digit(cmd[2]);
      if cmd[0] == 'S' as int && first % 256 < 6 then [Indicated(cur.(sf := first % 256))]
      else if cmd[0] == 'B' as int && first % 256 < 3 then [Indicated(cur.(bw := first % 256))]
      else if cmd[0] == 'C' as int && number % 256 < 16 then [Indicated(cur.(ch := number % 256))]
      else if cmd[0] == 'P' as int && 2 <= number % 256 <= 20 then [Indicated(cur.(power := number % 256))]
      else []
  }

  lemma CommandAdds(l: Link, cmd: seq<Byte>)
    ensures Adds(l, ExecuteCommand(l, cmd), CommandActs(l.cur, cmd))
    ensures CommandActs(l.cur, cmd) == [] ==> ExecuteCommand(l, cmd) == l
  {
    if |cmd| >= 2 {
      var d := ToByte(cmd[1] - ZERO);
      var v, p := ToByte(CommandValue(cmd)), ToSByte(CommandValue(cmd));
      SettersAdd(l, Quad(d, d, v, p));
      SettersSet(l, Quad(d, d, v, p));
    }
  }

  /** Everything the step `e` does that can be seen. */
  function StepActs(n: Node, e: Event): seq<Act> {
    match e
    case Timers(t) => PollActs(n, t)
    case Receive(p, h, sent, t) =>
      var pending := n.linkTimer.started || Store(n.rx, p.payload)[0] == 4;
      ReceiveActs(n, p, h, sent, t, pending && Successes(Step(n, e).link) > 3)
    case Transmit(dest, buf, sent) => SendActs(buf, dest, sent)
    case TransmitTx(dest, sent) => SendActs(n.tx, dest, sent)
    case Request(dest, q, acked, t) => RequestActs(n, dest, q, acked, t)
    case ChangeSpreadingFactor(sf) => if sf < 6 then [Indicated(n.link.cur.(sf := sf))] else []
    case ChangeBandwidth(bw) => if bw < 3 then [Indicated(n.link.cur.(bw := bw))] else []
    case ChangeFrequencyChannel(ch) => if ch < 16 then [Indicated(n.link.cur.(ch := ch))] else []
    case ChangeTxPower(power) => if 2 <= power <= 20 then [Indicated(n.link.cur.(power := power))] else []
    case Serial(c) => if n.commandMode && c == 10 then CommandActs(n.link.cur, n.cmd) else []
    case StartHeartbeats => []
    case StopHeartbeats => []
  }

  lemma StepAdds(n: Node, e: Event)
    requires Sound(n)
    ensures Adds(n.link, Step(n, e).link, StepActs(n, e))
  {
    hide SoundLink;
    hide ServiceTimers;
    hide ReceivePacket;
    hide ReceiveActs;
    hide ServiceTx;
    hide LinkChangeReq;
    hide RequestActs;
    hide ExecuteCommand;
    hide CommandActs;
    match e
    case Timers(t) => PollAdds(n, t);
    case Receive(p, h, sent, t) => ReceiveAdds(n, p, h, sent, t);
    case Transmit(dest, buf, sent) => SendAdds(n.link, dest, buf, sent);
    case TransmitTx(dest, sent) => SendAdds(n.link, dest, n.tx, sent);
    case Request(dest, q, acked, t) => RequestAdds(n, dest, q, acked, t);
    case ChangeSpreadingFactor(sf) => SettersAdd(n.link, Quad(sf, 0, 0, 0));
    case ChangeBandwidth(bw) => SettersAdd(n.link, Quad(0, bw, 0, 0));
    case ChangeFrequencyChannel(ch) => SettersAdd(n.link, Quad(0, 0, ch, 0));
    case ChangeTxPower(power) => SettersAdd(n.link, Quad(0, 0, 0, power));
    case Serial(c) => CommandAdds(n.link, n.cmd);
    case StartHeartbeats =>
    case StopHeartbeats =>
  }

  /**
   * The buffers change only as they are written: received bytes by packets, commands and text by typing, and text is
   * cleared by sending it. Only polls, packets and acknowledged requests read the clock or touch a running timer.
   */
  lemma StepTouches(n: Node, e: Event)
    requires Sound(n)
    ensures var m := Step(n, e);
      && m.address == n.address
      && m.rx == (if e.Receive? then Store(n.rx, e.p.payload) else n.rx)
      && (!e.Serial? ==> m.cmd == n.cmd && m.commandMode == n.commandMode)
      && (!e.Serial? ==> m.tx == if e.TransmitTx? then [] else n.tx)
      && (if e.Timers? || e.Receive? then true
          else if e.Request? && e.acked then TimersAre(m, e.t.now,
            TimerState(3000, Wrap32(e.t.now), false, true, false),
            n.heartbeatTimer.Update(Wrap32(e.t.now)).ClearDone())
          else TimersAre(m, n.now, n.linkTimer,
            if e.StartHeartbeats? then n.heartbeatTimer.(started := true)
            else if e.StopHeartbeats? then n.heartbeatTimer.(started := false)
            else n.heartbeatTimer))
      && (e.Timers? ==> TimersAre(m, e.t.now, n.linkTimer.Update(Wrap32(e.t.now)).ClearDone(),
            n.heartbeatTimer.Update(Wrap32(e.t.now)).ClearDone()))
  {
    hide SoundLink;
    hide ServiceTimers;
    hide ReceivePacket;
    hide ApplyQuad;
    match e
    case Timers(t) => TimersSound(n, t);
    case Receive(p, h, sent, t) => ReceiveState(n, p, h, sent, t);
    case Request(dest, q, acked, t) =>
      if acked {
        var asked := SendLinkChangeReq(n, dest, q);
        RecordSound(n.link, Transmitted(QuadMessage(MSG_LINK_CHANGE_REQ, q), dest));
        ApplySound(asked.link, q);
        ArmSound(asked.(link := ApplyQuad(asked.link, q)), LINK_CHANGE_TIMEOUT_MILLIS, t);
      }
    case _ =>
  }

  function RunActs(n: Node, events: seq<Event>): seq<Act>
    decreases |events|
  {
    if events == [] then [] else StepActs(n, events[0]) + RunActs(Step(n, events[0]), events[1..])
  }

  /** Over every run, a node has done exactly what its steps call for, in their order. */
  lemma {:induction false} RunAdds(n: Node, events: seq<Event>)
    requires Sound(n)
    ensures Adds(n.link, Run(n, events).link, RunActs(n, events))
    decreases |events|
  {
    hide Step;
    hide Sound;
    hide StepActs;
    if events == [] {
    } else {
      var m := Step(n, events[0]);
      StepSound(n, events[0]);
      StepAdds(n, events[0]);
      RunAdds(m, events[1..]);
      AddsBoth(n.link, m.link, Run(n, events).link, StepActs(n, events[0]), RunActs(m, events[1..]));
    }
  }

  // ---------- Every answer has its question ----------

  predicate IsMessage(act: Act, kind: Byte) {
    act.Transmitted? && act.buf != [] && act.buf[0] == kind
  }

  /** How many messages of one kind are put on the air in `acts`. */
  function Messages(acts: seq<Act>, kind: Byte): nat {
    if acts == [] then 0
    else (if IsMessage(acts[0], kind) then 1 else 0) + Messages(acts[1..], kind)
  }

  lemma {:induction false} MessagesOfBoth(a: seq<Act>, b: seq<Act>, kind: Byte)
    ensures Messages(a + b, kind) == Messages(a, kind) + Messages(b, kind)
    decreases |a|
  {
    if a == [] {
      assert a + b == b;
    } else {
      assert (a + b)[1..] == a[1..] + b;
      MessagesOfBoth(a[1..], b, kind);
    }
  }

  lemma {:induction false} NoMessages(acts: seq<Act>, kind: Byte)
    requires forall i :: 0 <= i < |acts| ==> !IsMessage(acts[i], kind)
    ensures Messages(acts, kind) == 0
    decreases |acts|
  {
    if acts == [] {
    } else {
      NoMessages(acts[1..], kind);
    }
  }

  /** Of the messages in `acts` only the first act can be one of this kind. */
  lemma OneMessage(acts: seq<Act>, kind: Byte)
    requires acts != [] && forall i :: 1 <= i < |acts| ==> !IsMessage(acts[i], kind)
    ensures Messages(acts, kind) == if IsMessage(acts[0], kind) then 1 else 0
  {
    NoMessages(acts[1..], kind);
  }

  /** How many messages of an addressed kind a step calls for: a request its own, a packet the response to it. */
  function Called(e: Event, kind: Byte): nat {
    if kind == 3 then if e.Request? then 1 else 0
    else if e.Receive? && e.p.payload != [] && e.p.payload[0] == kind - 1 then 1 else 0
  }

  function AllCalled(events: seq<Event>, kind: Byte): nat
    decreases |events|
  {
    if events == [] then 0 else Called(events[0], kind) + AllCalled(events[1..], kind)
  }

  /** No packet is empty, and the application sends no message of this kind of its own making. */
  predicate Proper(e: Event, kind: Byte) {
    && (e.Receive? ==> e.p.payload != [])
    && (e.Transmit? && e.buf != [] ==> e.buf[0] != kind)
  }

  /** The kinds of messages that go to one node only: requests, responses and heartbeat responses. */
  predicate Addressed(kind: Byte) {
    kind == 3 || kind == 4 || kind == 8
  }

  lemma TellsNoMessages(cur: Quad, q: Quad, kind: Byte)
    ensures Messages(Tells(cur, q), kind) == 0
  {
    assert forall i :: 0 <= i < |Tells(cur, q)| ==> Tells(cur, q)[i].Indicated?;
    NoMessages(Tells(cur, q), kind);
  }

  lemma SendMessages(buf: seq<Byte>, dest: Byte, ok: bool, kind: Byte)
    ensures Messages(SendActs(buf, dest, ok), kind) == if buf != [] && buf[0] == kind then 1 else 0
  {
    if buf != [] {
      OneMessage(SendActs(buf, dest, ok), kind);
    }
  }

  lemma RequestMessages(n: Node, dest: Byte, q: Quad, acked: bool, t: Tick, kind: Byte)
    requires Addressed(kind)
    ensures Messages(RequestActs(n, dest, q, acked, t), kind) == if kind == 3 then 1 else 0
  {
    var asked := [Transmitted([3, q.sf, q.bw, q.ch, ToByte(q.power)], dest)];
    OneMessage(asked, kind);
    TellsNoMessages(n.link.cur, q, kind);
    SendMessages([7, n.address], 255, t.sent, kind);
    hide Tells;
    MessagesOfBoth(Tells(n.link.cur, q), Due(n, t), kind);
    MessagesOfBoth(asked, Tells(n.link.cur, q) + Due(n, t), kind);
  }

  lemma AnswerMessages(n: Node, src: Byte, h: Tick, sent: bool, kind: Byte)
    requires Addressed(kind)
    ensures Messages(AnswerActs(n, src, h, sent), kind) == if kind != 3 && n.rx[0] == kind - 1 then 1 else 0
  {
    if n.rx[0] == 3 {
      var q := Quad(n.rx[1], n.rx[2], n.rx[3], ToSByte(n.rx[4]));
      var e := Effective(n.link.cur, q);
      var told, response := Tells(n.link.cur, q), [Transmitted([4, e.sf, e.bw, e.ch, ToByte(e.power)], src)];
      var back := Tells(e, Fallback(n.link.cur, n.link.prev, q));
      TellsNoMessages(n.link.cur, q, kind);
      TellsNoMessages(e, Fallback(n.link.cur, n.link.prev, q), kind);
      OneMessage(response, kind);
      hide Tells;
      MessagesOfBoth(told, response, kind);
      MessagesOfBoth(told + response, back, kind);
      assert AnswerActs(n, src, h, sent) == if sent then told + response else told + response + back;
    } else if n.rx[0] == 4 {
      SendMessages([7, n.address], 255, h.sent, kind);
    } else if n.rx[0] == 7 {
      SendMessages([8, n.address], src, sent, kind);
    }
  }

  lemma ReceiveMessages(n: Node, p: Packet, h: Tick, sent: bool, t: Tick, trusted: bool, kind: Byte)
    requires Addressed(kind) && p.payload != []
    ensures Messages(ReceiveActs(n, p, h, sent, t, trusted), kind)
         == if kind != 3 && p.payload[0] == kind - 1 then 1 else 0
  {
    var a := n.(rx := Store(n.rx, p.payload));
    var handled := if a.rx[0] == 4 then a.(heartbeatTimer := a.heartbeatTimer.Update(Wrap32(h.now)).ClearDone()) else a;
    var told, answer := [RxInd(p.payload, p.src)], AnswerActs(a, p.src, h, sent);
    var due := if trusted then Due(handled, t) else [];
    OneMessage(told, kind);
    OneMessage([Counted(true)], kind);
    AnswerMessages(a, p.src, h, sent, kind);
    SendMessages([7, n.address], 255, t.sent, kind);
    hide AnswerActs;
    MessagesOfBoth([Counted(true)], due, kind);
    MessagesOfBoth(told, answer, kind);
    MessagesOfBoth(told + answer, [Counted(true)] + due, kind);
  }

  lemma PollMessages(n: Node, t: Tick, kind: Byte)
    requires Addressed(kind)
    ensures Messages(PollActs(n, t), kind) == 0
  {
    TellsNoMessages(n.link.cur, n.link.prev, kind);
    SendMessages([7, n.address], 255, t.sent, kind);
    hide Tells;
    MessagesOfBoth(Tells(n.link.cur, n.link.prev), Due(n, t), kind);
    assert [] + Due(n, t) == Due(n, t);
  }

  lemma StepAnswers(n: Node, e: Event, kind: Byte)
    requires Sound(n) && Proper(e, kind) && Addressed(kind)
    ensures Messages(StepActs(n, e), kind) == Called(e, kind)
  {
    hide SoundLink;
    hide PollActs;
    hide ReceiveActs;
    hide RequestActs;
    hide SendActs;
    match e
    case Timers(t) => PollMessages(n, t, kind);
    case Receive(p, h, sent, t) =>
      var pending := n.linkTimer.started || Store(n.rx, p.payload)[0] == 4;
      ReceiveMessages(n, p, h, sent, t, pending && Successes(Step(n, e).link) > 3, kind);
    case Transmit(dest, buf, sent) => SendMessages(buf, dest, sent, kind);
    case TransmitTx(dest, sent) => SendMessages(n.tx, dest, sent, kind);
    case Request(dest, q, acked, t) => RequestMessages(n, dest, q, acked, t, kind);
    case _ => NoMessages(StepActs(n, e), kind);
  }

  /**
   * Over every run, one request goes out for each one the application makes, one link-change response for each request
   * received, and one heartbeat response for each heartbeat received: answers are never answered.
   */
  lemma {:induction false} EveryAnswerHasItsQuestion(n: Node, events: seq<Event>, kind: Byte)
    requires Sound(n) && Addressed(kind)
    requires forall i :: 0 <= i < |events| ==> Proper(events[i], kind)
    ensures Messages(RunActs(n, events), kind) == AllCalled(events, kind)
    decreases |events|
  {
    hide Step;
    hide Sound;
    hide StepActs;
    hide Called;
    hide Proper;
    if events == [] {
    } else {
      StepSound(n, events[0]);
      StepAnswers(n, events[0], kind);
      EveryAnswerHasItsQuestion(Step(n, events[0]), events[1..], kind);
      MessagesOfBoth(StepActs(n, events[0]), RunActs(Step(n, events[0]), events[1..]), kind);
    }
  }
}
