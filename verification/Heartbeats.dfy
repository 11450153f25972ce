/** How often a node broadcasts its heartbeat, measured on a clock that never wraps. */
module Heartbeats {
  import opened Platform
  import opened Settings
  import opened Timer
  import opened Node
  import opened NodeInvariants
  import opened PendingChange

  function Count(trace: Trace, act: Act): nat {
    match trace
    case Empty => 0
    case Snoc(before, last) => Count(before, act) + if last == act then 1 else 0
  }

  /** The broadcast that is a heartbeat of the node at `address`. */
  function Heartbeat(address: Byte): Act {
    Transmitted([MSG_HEARTBEAT_REQ, address], BROADCAST_ADDRESS)
  }

  /** How many heartbeats a node has put on the air. */
  function Beats(n: Node): nat {
    Count(n.link.trace, Heartbeat(n.address))
  }

  /** The application sends no heartbeats of its own making. */
  predicate NotForged(n: Node, e: Event) {
    e.Transmit? ==> Transmitted(e.buf, e.dest) != Heartbeat(n.address)
  }

  // ---------- Where heartbeats come from ----------

  lemma SettersSendNothing(l: Link, q: Quad, act: Act)
    requires act.Transmitted?
    ensures Count(SetSpreadingFactor(l, q.sf).trace, act) == Count(l.trace, act)
    ensures Count(SetBandwidth(l, q.bw).trace, act) == Count(l.trace, act)
    ensures Count(SetFrequencyChannel(l, q.ch).trace, act) == Count(l.trace, act)
    ensures Count(SetTxPower(l, q.power).trace, act) == Count(l.trace, act)
  {}

  lemma ApplySendsNothing(l: Link, q: Quad, act: Act)
    requires act.Transmitted?
    ensures Count(ApplyQuad(l, q).trace, act) == Count(l.trace, act)
  {
    var a := SetSpreadingFactor(l, q.sf);
    var b := SetBandwidth(a, q.bw);
    var c := SetTxPower(b, q.power);
    SettersSendNothing(l, q, act);
    SettersSendNothing(a, q, act);
    SettersSendNothing(b, q, act);
    SettersSendNothing(c, q, act);
  }

  lemma TxSends(l: Link, dest: Byte, buf: seq<Byte>, sent: bool, act: Act)
    requires act.Transmitted?
    ensures Count(ServiceTx(l, dest, buf, sent).trace, act)
         == Count(l.trace, act) + if buf != [] && act == Transmitted(buf, dest) then 1 else 0
  {
    if buf != [] {
      var acked := sent && dest != BROADCAST_ADDRESS;
      var onAir := Record(l, Transmitted(buf, dest));
      var counted := if acked || !sent then UpdatePacketErrorFraction(onAir, acked) else onAir;
      assert Count(counted.trace, act) == Count(onAir.trace, act);
      assert ServiceTx(l, dest, buf, sent).trace == Snoc(counted.trace, TxInd(buf, dest, acked));
    }
  }

  lemma SerialSendsNothing(n: Node, c: Byte, act: Act)
    requires act.Transmitted?
    ensures var m := SerialChar(n, c);
      Count(m.link.trace, act) == Count(n.link.trace, act)
      && m.address == n.address && m.heartbeatTimer == n.heartbeatTimer && m.now == n.now
  {
    if |n.cmd| >= 2 {
      var d := ToByte(n.cmd[1] - ZERO);
      var v, p := ToByte(CommandValue(n.cmd)), ToSByte(CommandValue(n.cmd));
      SettersSendNothing(n.link, Quad(d, d, v, p), act);
    }
  }

  /** A poll sends one heartbeat when the heartbeat timer fires, and none otherwise. */
  lemma PollBeats(n: Node, t: Tick)
    requires Sound(n)
    ensures Beats(ServiceTimers(n, t)) == Beats(n) + if n.heartbeatTimer.Fires(Wrap32(t.now)) then 1 else 0
  {
    var polled := UpdateTimers(n, t.now);
    ApplySendsNothing(n.link, n.link.prev, Heartbeat(n.address));
    TxSends(ServiceLinkTimer(polled).link, BROADCAST_ADDRESS, [MSG_HEARTBEAT_REQ, n.address], t.sent,
      Heartbeat(n.address));
  }

  // ---------- Neither too often nor too seldom ----------

  /** The time that so many heartbeats take at one heartbeat a period. */
  function Time(beats: int, period: int): int {
    period * beats
  }

  /**
   * The heartbeat timer's reference was taken at true time `r`. The heartbeats beyond the first `past` were sent after
   * `r0`. With a gap, the timer runs, the last clock reading found it unexpired, and no heartbeat has come late by more
   * than the gap.
   */
  predicate Paced(n: Node, r: nat, r0: nat, past: nat, gap: Option<nat>) {
    && n.heartbeatTimer.reference == Wrap32(r)
    && past <= Beats(n)
    && r0 + Time(Beats(n) - past, HEARTBEAT_TIMEOUT_MILLIS + 1) <= r <= n.now
    && (gap.Some? ==>
          && HEARTBEAT_TIMEOUT_MILLIS + gap.value < TWO_TO_THE_32
          && n.heartbeatTimer.started
          && n.now <= r + HEARTBEAT_TIMEOUT_MILLIS
          && r <= r0 + Time(Beats(n) - past, HEARTBEAT_TIMEOUT_MILLIS + gap.value))
  }

  /** What the heartbeat timer makes of a clock reading: it fires only late enough, and if it runs, not too late. */
  lemma TimerPace(tm: TimerState, r: nat, from: nat, to: nat, gap: Option<nat>)
    requires tm.timeout == HEARTBEAT_TIMEOUT_MILLIS && tm.repeating
    requires tm.reference == Wrap32(r) && r <= from && Reads(from, to, gap)
    requires gap.Some? ==> HEARTBEAT_TIMEOUT_MILLIS + gap.value < TWO_TO_THE_32
    requires gap.Some? ==> tm.started && from <= r + HEARTBEAT_TIMEOUT_MILLIS
    ensures var fires := tm.Fires(Wrap32(to));
      var next := tm.Update(Wrap32(to)).ClearDone();
      && next.started == tm.started
      && next.reference == Wrap32(if tm.started && !fires then r else to)
      && (fires ==> to >= r + HEARTBEAT_TIMEOUT_MILLIS + 1)
      && (gap.Some? ==> if fires then to <= r + HEARTBEAT_TIMEOUT_MILLIS + gap.value
                        else to <= r + HEARTBEAT_TIMEOUT_MILLIS)
  {
    ElapsedModulo(r, to);
  }

  lemma OneMore(beats: int, period: int)
    ensures Time(beats + 1, period) == Time(beats, period) + period
  {}

  lemma PollPace(n: Node, t: Tick, r: nat, r0: nat, past: nat, gap: Option<nat>) returns (r': nat)
    requires Sound(n) && Paced(n, r, r0, past, gap) && Reads(n.now, t.now, gap)
    ensures Paced(ServiceTimers(n, t), r', r0, past, gap)
  {
    hide Time;
    hide ServiceTimers;
    hide Beats;
    hide SoundLink;
    hide TimerState.Update;
    TimersSound(n, t);
    PollBeats(n, t);
    TimerPace(n.heartbeatTimer, r, n.now, t.now, gap);
    OneMore(Beats(n) - past, HEARTBEAT_TIMEOUT_MILLIS + 1);
    if gap.Some? {
      OneMore(Beats(n) - past, HEARTBEAT_TIMEOUT_MILLIS + gap.value);
    }
    r' := if n.heartbeatTimer.started && !n.heartbeatTimer.Fires(Wrap32(t.now)) then r else t.now;
  }

  lemma ArmPace(n: Node, timeout: Word32, t: Tick, r: nat, r0: nat, past: nat, gap: Option<nat>) returns (r': nat)
    requires Sound(n) && Paced(n, r, r0, past, gap) && Reads(n.now, t.now, gap)
    requires timeout == LINK_CHANGE_TIMEOUT_MILLIS || timeout == TRUST_TIMEOUT_MILLIS
    ensures Paced(ArmLinkTimer(n, timeout, t), r', r0, past, gap)
  {
    hide Time;
    r' := PollPace(n.(linkTimer := n.linkTimer.Pause().ClearDone().SetTimeout(timeout)), t, r, r0, past, gap);
  }

  lemma HandlePace(n: Node, src: Byte, t: Tick, sent: bool, r: nat, r0: nat, past: nat, gap: Option<nat>)
      returns (r': nat)
    requires Sound(n) && Paced(n, r, r0, past, gap) && Reads(n.now, t.now, gap)
    ensures Paced(HandlePacket(n, src, t, sent), r', r0, past, gap)
  {
    hide Time;
    hide ServiceTimers;
    hide SoundLink;
    if n.rx[0] == MSG_LINK_CHANGE_RSP {
      r' := ArmPace(n, TRUST_TIMEOUT_MILLIS, t, r, r0, past, gap);
    } else {
      r' := r;
      var q := QuadFrom(n.rx);
      var started := StartLinkChange(n.link, src, q);
      ApplySendsNothing(n.link, q, Heartbeat(n.address));
      ApplySendsNothing(started, started.prev, Heartbeat(n.address));
      TxSends(n.link, src, [MSG_HEARTBEAT_RSP, n.address], sent, Heartbeat(n.address));
    }
  }

  lemma FinishPace(n: Node, t: Tick, r: nat, r0: nat, past: nat, gap: Option<nat>) returns (r': nat)
    requires Sound(n) && Paced(n, r, r0, past, gap) && Reads(n.now, t.now, gap)
    ensures Paced(FinishPacket(n, t), r', r0, past, gap)
  {
    hide Time;
    UpdateSound(n.link, true);
    var counted := n.(link := UpdatePacketErrorFraction(n.link, true));
    r' := r;
    if counted.linkTimer.started && Trusts(counted.link) {
      var idle := counted.(linkTimer := counted.linkTimer.Reset(Wrap32(counted.now)).Pause().ClearDone());
      r' := PollPace(idle, t, r, r0, past, gap);
    }
  }

  /** Accepting a packet only stores it and tells the user. */
  lemma AcceptSends(n: Node, p: Packet, act: Act)
    requires Sound(n) && act.Transmitted?
    ensures var a := AcceptPacket(n, p);
      && Sound(a)
      && a == n.(link := a.link, rx := a.rx)
      && a.link.cur == n.link.cur
      && (p.payload != [] ==> a.rx[0] == p.payload[0])
      && Count(a.link.trace, act) == Count(n.link.trace, act)
      && PacketsSinceChange(a.link.trace) == PacketsSinceChange(n.link.trace)
  {
    AcceptSound(n, p);
  }

  lemma AcceptPace(n: Node, p: Packet, r: nat, r0: nat, past: nat, gap: Option<nat>)
    requires Sound(n) && Paced(n, r, r0, past, gap)
    ensures var a := AcceptPacket(n, p);
      Sound(a) && Paced(a, r, r0, past, gap) && a.now == n.now && a.address == n.address
  {
    AcceptSends(n, p, Heartbeat(n.address));
  }

  lemma ReceivePace(n: Node, p: Packet, h: Tick, sent: bool, t: Tick, r: nat, r0: nat, past: nat, gap: Option<nat>)
      returns (r': nat)
    requires Sound(n) && Paced(n, r, r0, past, gap)
    requires Reads(n.now, h.now, gap) && Reads(HandledAt(n, p, h), t.now, gap)
    ensures Paced(ReceivePacket(n, p, h, sent, t), r', r0, past, gap)
  {
    hide AcceptPacket;
    hide HandlePacket;
    hide FinishPacket;
    hide Sound;
    hide Paced;
    AcceptPace(n, p, r, r0, past, gap);
    var a := AcceptPacket(n, p);
    HandleSound(a, p.src, h, sent);
    var r1 := HandlePace(a, p.src, h, sent, r, r0, past, gap);
    r' := FinishPace(HandlePacket(a, p.src, h, sent), t, r1, r0, past, gap);
  }

  lemma RequestPace(n: Node, dest: Byte, q: Quad, acked: bool, t: Tick, r: nat, r0: nat, past: nat, gap: Option<nat>)
      returns (r': nat)
    requires Sound(n) && Paced(n, r, r0, past, gap) && (acked ==> Reads(n.now, t.now, gap))
    ensures Paced(LinkChangeReq(n, dest, q, acked, t), r', r0, past, gap)
  {
    hide Time;
    var asked := SendLinkChangeReq(n, dest, q);
    RecordSound(n.link, Transmitted(QuadMessage(MSG_LINK_CHANGE_REQ, q), dest));
    assert Beats(asked) == Beats(n);
    r' := r;
    if acked {
      ApplySound(asked.link, q);
      ApplySendsNothing(asked.link, q, Heartbeat(n.address));
      var applied := asked.(link := ApplyQuad(asked.link, q));
      r' := ArmPace(applied, LINK_CHANGE_TIMEOUT_MILLIS, t, r, r0, past, gap);
    }
  }

  lemma StepPace(n: Node, e: Event, r: nat, r0: nat, past: nat, gap: Option<nat>) returns (r': nat)
    requires Sound(n) && Paced(n, r, r0, past, gap) && NotForged(n, e) && ReadsInOrder(n, e, gap)
    requires gap.Some? ==> !e.StopHeartbeats?
    ensures Sound(Step(n, e)) && Paced(Step(n, e), r', r0, past, gap)
  {
    hide Time;
    StepSound(n, e);
    hide SoundLink;
    hide ServiceTimers;
    hide ReceivePacket;
    hide LinkChangeReq;
    hide ServiceTx;
    hide SerialChar;
    r' := r;
    match e
    case Timers(t) => r' := PollPace(n, t, r, r0, past, gap);
    case Receive(p, h, sent, t) => r' := ReceivePace(n, p, h, sent, t, r, r0, past, gap);
    case Request(dest, q, acked, t) => r' := RequestPace(n, dest, q, acked, t, r, r0, past, gap);
    case Transmit(dest, buf, sent) => TxSends(n.link, dest, buf, sent, Heartbeat(n.address));
    case TransmitTx(dest, sent) => TxSends(n.link, dest, n.tx, sent, Heartbeat(n.address));
    case ChangeSpreadingFactor(sf) => SettersSendNothing(n.link, Quad(sf, 0, 0, 0), Heartbeat(n.address));
    case ChangeBandwidth(bw) => SettersSendNothing(n.link, Quad(0, bw, 0, 0), Heartbeat(n.address));
    case ChangeFrequencyChannel(ch) => SettersSendNothing(n.link, Quad(0, 0, ch, 0), Heartbeat(n.address));
    case ChangeTxPower(power) => SettersSendNothing(n.link, Quad(0, 0, 0, power), Heartbeat(n.address));
    case Serial(c) => SerialSendsNothing(n, c, Heartbeat(n.address));
    case StartHeartbeats =>
    case StopHeartbeats =>
  }

  /** The clock is read in order, within the gap if there is one, and then heartbeats are not stopped either. */
  predicate AllInOrder(n: Node, events: seq<Event>, gap: Option<nat>)
    decreases |events|
  {
    events == [] ||
      (&& NotForged(n, events[0]) && ReadsInOrder(n, events[0], gap)
       && (gap.Some? ==> !events[0].StopHeartbeats?)
       && AllInOrder(Step(n, events[0]), events[1..], gap))
  }

  lemma {:induction false} RunPace(n: Node, r: nat, r0: nat, past: nat, gap: Option<nat>, events: seq<Event>)
      returns (r': nat)
    requires Sound(n) && Paced(n, r, r0, past, gap) && AllInOrder(n, events, gap)
    ensures Paced(Run(n, events), r', r0, past, gap)
    decreases |events|
  {
    hide Time;
    hide Step;
    hide Sound;
    hide NotForged;
    hide ReadsInOrder;
    if events == [] {
      r' := r;
    } else {
      var m := Step(n, events[0]);
      var r1 := StepPace(n, events[0], r, r0, past, gap);
      r' := RunPace(m, r1, r0, past, gap, events[1..]);
    }
  }

  /**
   * Over every run, with heartbeats started and stopped at will, rollbacks, link changes and clock wraps in between:
   * k heartbeats after a reference taken at true time `r` have taken at least 7001 k milliseconds.
   */
  lemma HeartbeatsNeverTooOften(n: Node, r: nat, events: seq<Event>)
    requires Sound(n) && n.heartbeatTimer.reference == Wrap32(r) && r <= n.now
    requires AllInOrder(n, events, None)
    ensures var m := Run(n, events);
      Beats(m) >= Beats(n) && m.now >= r + (HEARTBEAT_TIMEOUT_MILLIS + 1) * (Beats(m) - Beats(n))
  {
    var r' := RunPace(n, r, r, Beats(n), None, events);
  }

  /**
   * Over every run that does not stop the heartbeats, whatever arrives, is sent, changed or typed in between, and
   * whatever the clock wraps: with clock readings at most `gap` apart, k heartbeats have come within
   * (7000 + gap) k ms of the reference, and the last one less than 7001 ms before the latest reading.
   */
  lemma HeartbeatsOftenEnough(n: Node, r: nat, events: seq<Event>, gap: nat) returns (last: nat)
    requires Sound(n) && n.heartbeatTimer.started && n.heartbeatTimer.reference == Wrap32(r)
    requires r <= n.now <= r + HEARTBEAT_TIMEOUT_MILLIS && HEARTBEAT_TIMEOUT_MILLIS + gap < TWO_TO_THE_32
    requires AllInOrder(n, events, Some(gap))
    ensures var m := Run(n, events);
      var beats := Beats(m) - Beats(n);
      && beats >= 0
      && last <= r + (HEARTBEAT_TIMEOUT_MILLIS + gap) * beats
      && last <= m.now <= last + HEARTBEAT_TIMEOUT_MILLIS
      && m.heartbeatTimer.reference == Wrap32(last)
  {
    last := RunPace(n, r, r, Beats(n), Some(gap), events);
  }

  lemma AnswerEffect(a: Node, src: Byte, h: Tick, sent: bool)
    requires a.rx[0] == MSG_HEARTBEAT_REQ
    ensures var m := HandlePacket(a, src, h, sent);
      var answer := Transmitted([MSG_HEARTBEAT_RSP, a.address], src);
      && m == a.(link := m.link)
      && Count(m.link.trace, answer) == Count(a.link.trace, answer) + 1
      && Beats(m) == Beats(a)
      && PacketsSinceChange(m.link.trace) == PacketsSinceChange(a.link.trace)
           + if sent && src == BROADCAST_ADDRESS then [] else [sent]
  {
    var reply := [MSG_HEARTBEAT_RSP, a.address];
    TxSends(a.link, src, reply, sent, Transmitted(reply, src));
    TxSends(a.link, src, reply, sent, Heartbeat(a.address));
    TxRecords(a.link, src, reply, sent);
  }

  /** A poll with no change pending does nothing to the trace but send and record a heartbeat, if one is due. */
  lemma IdlePoll(n: Node, t: Tick, act: Act)
    requires !n.linkTimer.started && !n.linkTimer.done && !n.heartbeatTimer.done
    requires act.Transmitted? && act != Heartbeat(n.address)
    ensures var m := ServiceTimers(n, t);
      var beats := n.heartbeatTimer.Fires(Wrap32(t.now));
      && Count(m.link.trace, act) == Count(n.link.trace, act)
      && Beats(m) == Beats(n) + (if beats then 1 else 0)
      && PacketsSinceChange(m.link.trace)
           == PacketsSinceChange(n.link.trace) + (if beats && !t.sent then [false] else [])
  {
    var beat := [MSG_HEARTBEAT_REQ, n.address];
    TxSends(n.link, BROADCAST_ADDRESS, beat, t.sent, act);
    TxSends(n.link, BROADCAST_ADDRESS, beat, t.sent, Heartbeat(n.address));
    TxRecords(n.link, BROADCAST_ADDRESS, beat, t.sent);
    assert ServiceLinkTimer(UpdateTimers(n, t.now)) == UpdateTimers(n, t.now);
  }

  /** Besides counting the packet, finishing it polls the heartbeat timer when it brings trust. */
  lemma FinishEffect(n: Node, t: Tick, act: Act)
    requires Sound(n) && act.Transmitted? && act != Heartbeat(n.address)
    ensures var m := FinishPacket(n, t);
      var beats := n.linkTimer.started && !m.linkTimer.started && n.heartbeatTimer.Fires(Wrap32(t.now));
      && Count(m.link.trace, act) == Count(n.link.trace, act)
      && Beats(m) == Beats(n) + (if beats then 1 else 0)
      && PacketsSinceChange(m.link.trace)
           == PacketsSinceChange(n.link.trace) + [true] + (if beats && !t.sent then [false] else [])
  {
    hide ServiceTimers;
    hide SoundLink;
    hide TimerState.Fires;
    hide TimerState.Update;
    FinishSound(n, t);
    var counted := n.(link := UpdatePacketErrorFraction(n.link, true));
    assert Count(counted.link.trace, act) == Count(n.link.trace, act) && Beats(counted) == Beats(n);
    if counted.linkTimer.started && Trusts(counted.link) {
      var idle := counted.(linkTimer := counted.linkTimer.Reset(Wrap32(counted.now)).Pause().ClearDone());
      IdlePoll(idle, t, act);
    }
  }

  /** A heartbeat that arrives is answered once, to its sender; nothing else is, and the settings stay. */
  lemma HeartbeatIsAnswered(n: Node, p: Packet, h: Tick, sent: bool, t: Tick)
    requires Sound(n) && p.payload != [] && p.payload[0] == MSG_HEARTBEAT_REQ
    ensures var m := ReceivePacket(n, p, h, sent, t);
      var answer := Transmitted([MSG_HEARTBEAT_RSP, n.address], p.src);
      var reply := if sent && p.src == BROADCAST_ADDRESS then [] else [sent];
      var trusted := n.linkTimer.started && !m.linkTimer.started;
      var beats := trusted && n.heartbeatTimer.Fires(Wrap32(t.now));
      && Count(m.link.trace, answer) == Count(n.link.trace, answer) + 1
      && Beats(m) == Beats(n) + (if beats then 1 else 0)
      && PacketsSinceChange(m.link.trace) == PacketsSinceChange(n.link.trace) + reply + [true]
           + (if beats && !t.sent then [false] else [])
      && m.link.cur == n.link.cur
  {
    var a := AcceptPacket(n, p);
    var answer := Transmitted([MSG_HEARTBEAT_RSP, n.address], p.src);
    AcceptSends(n, p, answer);
    AcceptSends(n, p, Heartbeat(n.address));
    AnswerEffect(a, p.src, h, sent);
    var handled := HandlePacket(a, p.src, h, sent);
    HandleSound(a, p.src, h, sent);
    TxSound(a.link, p.src, [MSG_HEARTBEAT_RSP, a.address], sent);
    assert handled.link.cur == n.link.cur;
    hide AcceptPacket;
    hide HandlePacket;
    FinishSound(handled, t);
    FinishEffect(handled, t, answer);
  }

  // ---------- The exact times, in quiet runs ----------

  /** Quiet steps that neither start, stop nor forge heartbeats. */
  predicate AllSteady(n: Node, events: seq<Event>)
    decreases |events|
  {
    events == [] ||
      (&& Quiet(n, events[0]) && !events[0].StartHeartbeats? && !events[0].StopHeartbeats? && NotForged(n, events[0])
       && AllSteady(Step(n, events[0]), events[1..]))
  }

  lemma SteadyBeat(n: Node, e: Event)
    requires Sound(n) && Quiet(n, e) && !e.StartHeartbeats? && !e.StopHeartbeats? && NotForged(n, e)
    ensures var m := Step(n, e);
      && Sound(m) && m.address == n.address
      && Beats(m) == Beats(n) + (if e.Timers? && n.heartbeatTimer.Fires(Wrap32(e.t.now)) then 1 else 0)
      && m.heartbeatTimer
           == (if e.Timers? then n.heartbeatTimer.Update(Wrap32(e.t.now)).ClearDone() else n.heartbeatTimer)
  {
    StepSound(n, e);
    match e
    case Timers(t) =>
      TimersSound(n, t);
      PollBeats(n, t);
    case Transmit(dest, buf, sent) => TxSends(n.link, dest, buf, sent, Heartbeat(n.address));
    case TransmitTx(dest, sent) => TxSends(n.link, dest, n.tx, sent, Heartbeat(n.address));
    case Request(_, _, _, _) =>
    case Serial(c) => SerialSendsNothing(n, c, Heartbeat(n.address));
  }

  /** In a quiet run each firing of the heartbeat timer sends one heartbeat. */
  lemma {:induction false} SteadyBeats(n: Node, events: seq<Event>)
    requires Sound(n) && AllSteady(n, events)
    ensures Beats(Run(n, events)) == Beats(n) + |FireTimes(n.heartbeatTimer, PollTimes(events))|
    decreases |events|
  {
    hide Step;
    hide Quiet;
    hide NotForged;
    if events == [] {
    } else {
      SteadyBeat(n, events[0]);
      SteadyBeats(Step(n, events[0]), events[1..]);
      if events[0].Timers? {
        assert PollTimes(events)[1..] == PollTimes(events[1..]);
      }
    }
  }

  /**
   * In a quiet run polled every `gap` ms, heartbeats come at exactly the polls where they would on a clock that never
   * wraps: each more than 7000 and at most 7000 + gap ms after the one before.
   */
  lemma QuietHeartbeatTimes(n: Node, r: nat, events: seq<Event>, gap: nat)
    requires Sound(n) && AllSteady(n, events)
    requires n.heartbeatTimer.started && n.heartbeatTimer.reference == Wrap32(r)
    requires r <= n.now <= r + HEARTBEAT_TIMEOUT_MILLIS
    requires PolledEvery(n.now, PollTimes(events), gap) && HEARTBEAT_TIMEOUT_MILLIS + gap < TWO_TO_THE_32
    ensures var fires := FireTimes(n.heartbeatTimer, PollTimes(events));
      && Beats(Run(n, events)) == Beats(n) + |fires|
      && Spaced([r] + fires, HEARTBEAT_TIMEOUT_MILLIS, HEARTBEAT_TIMEOUT_MILLIS + gap)
      && fires == IdealFireTimes(HEARTBEAT_TIMEOUT_MILLIS, true, r, PollTimes(events))
  {
    SteadyBeats(n, events);
    hide SoundLink;
    FireSpacing(n.heartbeatTimer, r, n.now, PollTimes(events), gap);
    TimerRefinesIdeal(n.heartbeatTimer, r, n.now, PollTimes(events), gap);
  }
}
