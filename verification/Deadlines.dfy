/** When a node acts, to the millisecond, in the plain numbers of the protocol. */
module Deadlines {
  import opened Platform
  import opened Settings
  import opened Timer
  import opened Node
  import opened NodeInvariants
  import opened PendingChange
  import opened Heartbeats
  import opened Visible

  /** `m` is what a poll makes of `n` that finds a pending change, if there is one, unexpired. */
  predicate StaysOn(n: Node, m: Node) {
    m.link.cur == n.link.cur && m.link.prev == n.link.prev && m.linkTimer == n.linkTimer
  }

  /** `m` is what a poll makes of `n` that finds a pending change expired. */
  predicate GoesBack(n: Node, m: Node) {
    m.link.cur == n.link.prev && m.link.prev == n.link.cur && !m.linkTimer.started
  }

  lemma PollAt(n: Node, r: nat, poll: Tick)
    requires Sound(n) && n.linkTimer.started && n.linkTimer.reference == Wrap32(r)
    requires r <= poll.now < r + 4294967296
    ensures var m := ServiceTimers(n, poll);
      if poll.now <= r + n.linkTimer.timeout then StaysOn(n, m) else GoesBack(n, m)
  {
    hide ServiceTimers;
    FiresExactly(n.linkTimer, r, poll.now);
    TimersSound(n, poll);
  }

  /** After an acknowledged request a poll through 3000 ms stays on the new settings, and from 3001 ms on goes back. */
  lemma RequestDeadline(n: Node, dest: Byte, q: Quad, t: Tick, poll: Tick)
    requires Sound(n) && t.now <= poll.now < t.now + 4294967296
    ensures var armed := LinkChangeReq(n, dest, q, true, t);
      var m := ServiceTimers(armed, poll);
      && armed.linkTimer.started && armed.link.cur == Effective(n.link.cur, q)
      && (poll.now <= t.now + 3000 ==> StaysOn(armed, m))
      && (poll.now >= t.now + 3001 ==> GoesBack(armed, m))
  {
    hide ServiceTimers;
    hide LinkChangeReq;
    ArmedRunsFrom(n, dest, q, t);
    PollAt(LinkChangeReq(n, dest, q, true, t), t.now, poll);
  }

  lemma ResponseCounts(n: Node, p: Packet, h: Tick, sent: bool, t: Tick)
    requires Sound(n) && AcceptPacket(n, p).rx[0] == MSG_LINK_CHANGE_RSP
    ensures Successes(ReceivePacket(n, p, h, sent, t).link) == Successes(n.link) + 1
  {
    hide ServiceTimers;
    hide SoundLink;
    var a := AcceptPacket(n, p);
    AcceptSound(n, p);
    ArmSound(a, TRUST_TIMEOUT_MILLIS, h);
    FinishSound(ArmLinkTimer(a, TRUST_TIMEOUT_MILLIS, h), t);
  }

  /**
   * A response leaves a change pending if fewer than three successes went before. Then a poll through 24000 ms after it
   * is handled stays on the settings, and one from 24001 ms on goes back.
   */
  lemma ResponseDeadline(n: Node, p: Packet, h: Tick, sent: bool, t: Tick, poll: Tick)
    requires Sound(n) && p.payload != [] && p.payload[0] == 4
    requires h.now <= poll.now < h.now + 4294967296
    ensures var answered := ReceivePacket(n, p, h, sent, t);
      var m := ServiceTimers(answered, poll);
      && answered.link.cur == n.link.cur && answered.link.prev == n.link.prev
      && Successes(answered.link) == Successes(n.link) + 1
      && (answered.linkTimer.started <==> Successes(n.link) < 3)
      && (answered.linkTimer.started && poll.now <= h.now + 24000 ==> StaysOn(answered, m))
      && (answered.linkTimer.started && poll.now >= h.now + 24001 ==> GoesBack(answered, m))
  {
    hide ServiceTimers;
    hide ReceivePacket;
    ResponseCounts(n, p, h, sent, t);
    PacketEffect(n, p, h, sent, t);
    var answered := ReceivePacket(n, p, h, sent, t);
    if answered.linkTimer.started {
      PollAt(answered, h.now, poll);
    }
  }

  /** A packet that leaves a change pending renews its deadline: as long again from the node's last clock reading. */
  lemma PacketRenews(n: Node, p: Packet, h: Tick, sent: bool, t: Tick, poll: Tick)
    requires Sound(n) && n.linkTimer.started
    requires p.payload != [] && p.payload[0] != 3 && p.payload[0] != 4
    requires ReceivePacket(n, p, h, sent, t).linkTimer.started
    requires n.now <= poll.now < n.now + 4294967296
    ensures var renewed := ReceivePacket(n, p, h, sent, t);
      var m := ServiceTimers(renewed, poll);
      if poll.now <= n.now + n.linkTimer.timeout then StaysOn(renewed, m) else GoesBack(renewed, m)
  {
    hide ServiceTimers;
    hide ReceivePacket;
    PacketEffect(n, p, h, sent, t);
    PollAt(ReceivePacket(n, p, h, sent, t), n.now, poll);
  }

  // ---------- Trust ----------

  /** Packets that neither ask for anything nor answer anything: a pending change is all they bear on. */
  predicate AllOther(events: seq<Event>) {
    forall i :: 0 <= i < |events| ==>
      events[i].Receive? && events[i].p.payload != [] && events[i].p.payload[0] !in {3, 4, 7}
  }

  lemma OtherStep(n: Node, e: Event)
    requires Sound(n) && AllOther([e])
    ensures var m := Step(n, e);
      && Sound(m) && m.link.cur == n.link.cur && m.link.prev == n.link.prev
      && Successes(m.link) == Successes(n.link) + 1
      && (m.linkTimer.started <==> n.linkTimer.started && Successes(n.link) < 3)
  {
    assert [e][0] == e;
    StepSound(n, e);
    OtherMessagesOnlyCount(n, e.p, e.h, e.sent, e.t);
  }

  lemma {:induction false} TrustedStays(n: Node, events: seq<Event>)
    requires Sound(n) && !n.linkTimer.started && AllOther(events)
    ensures var m := Run(n, events);
      && Sound(m) && m.link.cur == n.link.cur && m.link.prev == n.link.prev
      && Successes(m.link) == Successes(n.link) + |events| && !m.linkTimer.started
    decreases |events|
  {
    hide Step;
    hide Sound;
    if events == [] {
    } else {
      OtherStep(n, events[0]);
      TrustedStays(Step(n, events[0]), events[1..]);
    }
  }

  /** A pending change survives any number of packets that makes no more than three successes, and not one more. */
  lemma {:induction false} FourthSuccessBringsTrust(n: Node, events: seq<Event>)
    requires Sound(n) && n.linkTimer.started && Successes(n.link) <= 3 && AllOther(events)
    ensures var m := Run(n, events);
      && Sound(m) && m.link.cur == n.link.cur && m.link.prev == n.link.prev
      && Successes(m.link) == Successes(n.link) + |events|
      && (m.linkTimer.started <==> Successes(n.link) + |events| <= 3)
    decreases |events|
  {
    hide Step;
    hide Sound;
    if events == [] {
    } else {
      var m := Step(n, events[0]);
      OtherStep(n, events[0]);
      if m.linkTimer.started {
        FourthSuccessBringsTrust(m, events[1..]);
      } else {
        TrustedStays(m, events[1..]);
      }
    }
  }

  /** So a change made by a request that changes anything ends with the fourth packet, and not with the third. */
  lemma FourPacketsSettleAChange(n: Node, dest: Byte, q: Quad, t: Tick, events: seq<Event>)
    requires Sound(n) && AnyAccepted(q) && AllOther(events)
    ensures var m := Run(LinkChangeReq(n, dest, q, true, t), events);
      && m.link.cur == Effective(n.link.cur, q)
      && (m.linkTimer.started <==> |events| <= 3)
  {
    hide Run;
    hide ArmLinkTimer;
    ArmedRunsFrom(n, dest, q, t);
    var asked := SendLinkChangeReq(n, dest, q);
    RecordSound(n.link, Transmitted(QuadMessage(MSG_LINK_CHANGE_REQ, q), dest));
    ApplySound(asked.link, q);
    ApplyAny(asked.link, q);
    ArmSound(asked.(link := ApplyQuad(asked.link, q)), LINK_CHANGE_TIMEOUT_MILLIS, t);
    FourthSuccessBringsTrust(LinkChangeReq(n, dest, q, true, t), events);
  }

  // ---------- Heartbeats ----------

  /** A poll sends a heartbeat if it comes 7001 ms or more after the last one, and not through 7000 ms. */
  lemma HeartbeatDeadline(n: Node, r: nat, poll: Tick)
    requires Sound(n) && n.heartbeatTimer.started && n.heartbeatTimer.reference == Wrap32(r)
    requires r <= poll.now < r + 4294967296
    ensures var m := ServiceTimers(n, poll);
      && (poll.now <= r + 7000 ==> Beats(m) == Beats(n) && m.heartbeatTimer == n.heartbeatTimer)
      && (poll.now >= r + 7001 ==>
            Beats(m) == Beats(n) + 1 && m.heartbeatTimer == n.heartbeatTimer.Reset(Wrap32(poll.now)))
  {
    hide ServiceTimers;
    hide Beats;
    TimersSound(n, poll);
    PollBeats(n, poll);
    FiresExactly(n.heartbeatTimer, r, poll.now);
  }

  lemma SameBeats(n: Node, m: Node)
    requires m.link == n.link && m.address == n.address
    ensures Beats(m) == Beats(n)
  {}

  lemma RunOfThree(n: Node, a: Event, b: Event, c: Event)
    ensures Run(n, [a, b, c]) == Step(Step(Step(n, a), b), c)
  {
    hide Step;
    assert [a, b, c][1..] == [b, c] && [b, c][1..] == [c] && [c][1..] == [];
    var n1 := Step(n, a);
    var n2 := Step(n1, b);
    assert Run(n2, [c]) == Run(Step(n2, c), []);
    assert Run(n1, [b, c]) == Run(n2, [c]);
    assert Run(n, [a, b, c]) == Run(n1, [b, c]);
  }

  /** Heartbeats that are started count from the last poll before: the first one comes 7001 ms after that or later. */
  lemma FirstHeartbeat(n: Node, before: Tick, poll: Tick)
    requires Sound(n) && !n.heartbeatTimer.started
    requires before.now <= poll.now < before.now + 4294967296
    ensures var m := Run(n, [Timers(before), StartHeartbeats, Timers(poll)]);
      Beats(m) == Beats(n) + if poll.now >= before.now + 7001 then 1 else 0
  {
    hide ServiceTimers;
    hide Beats;
    var polled := ServiceTimers(n, before);
    TimersSound(n, before);
    PollBeats(n, before);
    var started := polled.(heartbeatTimer := polled.heartbeatTimer.Start());
    SameBeats(polled, started);
    HeartbeatDeadline(started, before.now, poll);
    RunOfThree(n, Timers(before), StartHeartbeats, Timers(poll));
  }

  /** While heartbeats are stopped, no poll sends one. */
  lemma StoppedHeartbeats(n: Node, poll: Tick)
    requires Sound(n)
    ensures Beats(ServiceTimers(Step(n, StopHeartbeats), poll)) == Beats(n)
  {
    hide ServiceTimers;
    hide Beats;
    StepSound(n, StopHeartbeats);
    SameBeats(n, Step(n, StopHeartbeats));
    PollBeats(Step(n, StopHeartbeats), poll);
  }
}
