/** How a link change ends at the client: by rolling back, exactly and on time, or by trusting the new link. */
module PendingChange {
  import opened Platform
  import opened Settings
  import opened Timer
  import opened ErrorFraction
  import opened Node
  import opened NodeInvariants

  // ---------- Rolling back ----------

  /** A rollback exchanges current and previous settings; a second one undoes it, on the radio too. */
  lemma RollbackSwaps(l: Link)
    requires SoundLink(l)
    ensures var back := RollBack(l);
      && back.cur == l.prev && back.prev == l.cur && back.radio == ProgrammedFor(l.prev)
      && RollBack(back).cur == l.cur && RollBack(back).prev == l.prev && RollBack(back).radio == l.radio
  {
    ApplyValid(l, l.prev);
    ApplySound(l, l.prev);
    ApplyValid(RollBack(l), l.cur);
    ApplySound(RollBack(l), l.cur);
  }

  /** Switching and rolling back restores the old settings exactly when every rejected field was settled. */
  lemma RollbackRestoresExactly(l: Link, q: Quad)
    requires SoundLink(l)
    ensures RollBack(ApplyQuad(l, q)).cur == l.cur <==> Restorable(l.cur, l.prev, q)
  {
    ApplySound(l, q);
    ApplyAny(l, q);
    ApplyValid(ApplyQuad(l, q), ApplyQuad(l, q).prev);
  }

  // ---------- Trusting ----------

  /** How the step `e` from `n` may stop a pending change: by rolling back, or on the fourth success. */
  predicate RolledBackBy(n: Node, e: Event) {
    var m := Step(n, e);
    e.Timers? && n.linkTimer.Fires(Wrap32(e.t.now)) && m.link.cur == n.link.prev && m.link.prev == n.link.cur
  }

  predicate TrustedBy(n: Node, e: Event) {
    var m := Step(n, e);
    var h := PacketsSinceChange(m.link.trace);
    e.Receive? && |h| - Errors(h) > SUCCESSFUL_PACKETS_BEFORE_LINK_IS_TRUSTED
    && LastIndicated(m.link.trace) == Some(m.link.cur)
  }

  lemma RequestKeepsPending(n: Node, dest: Byte, q: Quad, acked: bool, t: Tick)
    requires Sound(n) && n.linkTimer.started
    ensures LinkChangeReq(n, dest, q, acked, t).linkTimer.started
  {
    var asked := SendLinkChangeReq(n, dest, q);
    RecordSound(n.link, Transmitted(QuadMessage(MSG_LINK_CHANGE_REQ, q), dest));
    if acked {
      ApplySound(asked.link, q);
      ArmSound(asked.(link := ApplyQuad(asked.link, q)), LINK_CHANGE_TIMEOUT_MILLIS, t);
    }
  }

  lemma PacketStopsByTrust(n: Node, p: Packet, h: Tick, sent: bool, t: Tick)
    requires Sound(n) && n.linkTimer.started && !ReceivePacket(n, p, h, sent, t).linkTimer.started
    ensures Sound(ReceivePacket(n, p, h, sent, t))
    ensures Successes(ReceivePacket(n, p, h, sent, t).link) > SUCCESSFUL_PACKETS_BEFORE_LINK_IS_TRUSTED
  {
    var a := AcceptPacket(n, p);
    AcceptSound(n, p);
    HandleSound(a, p.src, h, sent);
    if a.rx[0] == MSG_LINK_CHANGE_RSP {
      ArmSound(a, TRUST_TIMEOUT_MILLIS, h);
    }
    FinishSound(HandlePacket(a, p.src, h, sent), t);
  }

  /**
   * Over every run, a pending change stops being pending in only two ways: a poll finds the timer expired and rolls
   * back, or a packet arrives when at least four successes have been recorded since the settings last changed.
   */
  lemma PendingEndsOnlyBy(n0: Node, events: seq<Event>, e: Event)
    requires Sound(n0)
    requires Run(n0, events).linkTimer.started && !Step(Run(n0, events), e).linkTimer.started
    ensures RolledBackBy(Run(n0, events), e) || TrustedBy(Run(n0, events), e)
  {
    AlwaysSound(n0, events);
    var n := Run(n0, events);
    match e
    case Timers(t) => TimersSound(n, t);
    case Receive(p, h, sent, t) => PacketStopsByTrust(n, p, h, sent, t);
    case Request(dest, q, acked, t) => RequestKeepsPending(n, dest, q, acked, t);
    case _ =>
  }

  // ---------- Deadlines ----------

  /** A newline that ends a command line long enough to act on. */
  predicate RunsCommand(n: Node, c: Byte) {
    n.commandMode && c == NEWLINE && |n.cmd| >= 2
  }

  /** Everything but packets, setters, acknowledged requests and the ends of serial commands. */
  predicate Quiet(n: Node, e: Event) {
    match e
    case Timers(_) => true
    case Transmit(_, _, _) => true
    case TransmitTx(_, _) => true
    case StartHeartbeats => true
    case StopHeartbeats => true
    case Request(_, _, acked, _) => !acked
    case Serial(c) => !RunsCommand(n, c)
    case _ => false
  }

  predicate AllQuiet(n: Node, events: seq<Event>)
    decreases |events|
  {
    events == [] || (Quiet(n, events[0]) && AllQuiet(Step(n, events[0]), events[1..]))
  }

  function PollTimes(events: seq<Event>): seq<nat>
    decreases |events|
  {
    if events == [] then []
    else if events[0].Timers? then [events[0].t.now] + PollTimes(events[1..])
    else PollTimes(events[1..])
  }

  lemma QuietStep(n: Node, e: Event)
    requires Sound(n) && Quiet(n, e)
    ensures var m := Step(n, e);
      var fires := e.Timers? && n.linkTimer.Fires(Wrap32(e.t.now));
      && Sound(m)
      && m.link.cur == (if fires then n.link.prev else n.link.cur)
      && m.link.prev == (if fires then n.link.cur else n.link.prev)
      && m.linkTimer == (if e.Timers? then n.linkTimer.Update(Wrap32(e.t.now)).ClearDone() else n.linkTimer)
      && m.now == (if e.Timers? then e.t.now else n.now)
      && (!fires ==> Successes(m.link) >= Successes(n.link))
  {
    StepSound(n, e);
    match e
    case Timers(t) => TimersSound(n, t);
    case Transmit(dest, buf, sent) => TxSound(n.link, dest, buf, sent);
    case TransmitTx(dest, sent) => TxSound(n.link, dest, n.tx, sent);
    case _ =>
  }

  lemma TimerNeverRepeats(n: Node)
    requires Sound(n)
    ensures !n.linkTimer.repeating
  {}

  /** Through a quiet run the settings are exchanged once for each firing of the rollback timer. */
  lemma {:induction false} QuietRun(n: Node, events: seq<Event>)
    requires Sound(n) && AllQuiet(n, events)
    ensures var m := Run(n, events);
      var fires := FireTimes(n.linkTimer, PollTimes(events));
      && Sound(m)
      && |fires| <= 1
      && (n.linkTimer.started ==> m.linkTimer.started == (fires == []))
      && (!n.linkTimer.started ==> !m.linkTimer.started && fires == [])
      && m.link.cur == (if fires == [] then n.link.cur else n.link.prev)
      && m.link.prev == (if fires == [] then n.link.prev else n.link.cur)
    decreases |events|
  {
    hide Step;
    hide Sound;
    hide Quiet;
    if events == [] {
    } else {
      TimerNeverRepeats(n);
      QuietStep(n, events[0]);
      QuietRun(Step(n, events[0]), events[1..]);
      if events[0].Timers? {
        assert PollTimes(events)[1..] == PollTimes(events[1..]);
      }
    }
  }

  /** An acknowledged request leaves the timer counting from the moment of arming, whatever state it was in before. */
  lemma ArmedRunsFrom(n: Node, dest: Byte, q: Quad, t: Tick)
    requires Sound(n)
    ensures var m := LinkChangeReq(n, dest, q, true, t);
      && Sound(m) && m.now == t.now
      && m.linkTimer == TimerState(LINK_CHANGE_TIMEOUT_MILLIS, Wrap32(t.now), false, true, false)
      && m.link.cur == Effective(n.link.cur, q) && m.link.prev == Fallback(n.link.cur, n.link.prev, q)
  {
    var asked := SendLinkChangeReq(n, dest, q);
    RecordSound(n.link, Transmitted(QuadMessage(MSG_LINK_CHANGE_REQ, q), dest));
    ApplySound(asked.link, q);
    ApplyAny(asked.link, q);
    ArmSound(asked.(link := ApplyQuad(asked.link, q)), LINK_CHANGE_TIMEOUT_MILLIS, t);
  }

  /**
   * After its request is acknowledged at time `t.now`, a client that hears nothing and polls every `gap` ms is on the
   * new settings up to and including 3000 ms, and on its fallback from a poll after 3000 and by 3000 + gap ms. The
   * fallback is the old settings unless a field was rejected that was not settled. This is so across a wrap of the
   * clock, whatever state the timer was in before, and whatever text is typed meanwhile.
   */
  lemma RollbackDeadline(n: Node, dest: Byte, q: Quad, t: Tick, events: seq<Event>, gap: nat)
    requires Sound(n) && AllQuiet(LinkChangeReq(n, dest, q, true, t), events)
    requires PolledEvery(t.now, PollTimes(events), gap) && LINK_CHANGE_TIMEOUT_MILLIS + gap < TWO_TO_THE_32
    ensures var armed := LinkChangeReq(n, dest, q, true, t);
      var m := Run(armed, events);
      var times := PollTimes(events);
      var fires := FireTimes(armed.linkTimer, times);
      if times != [] && times[|times| - 1] > t.now + LINK_CHANGE_TIMEOUT_MILLIS
      then m.link.cur == Fallback(n.link.cur, n.link.prev, q) && !m.linkTimer.started && |fires| == 1
           && t.now + LINK_CHANGE_TIMEOUT_MILLIS < fires[0] <= t.now + LINK_CHANGE_TIMEOUT_MILLIS + gap
      else m.link.cur == Effective(n.link.cur, q) && m.linkTimer.started && fires == []
    ensures Fallback(n.link.cur, n.link.prev, q) == n.link.cur <==> Restorable(n.link.cur, n.link.prev, q)
  {
    ArmedRunsFrom(n, dest, q, t);
    hide LinkChangeReq;
    var armed := LinkChangeReq(n, dest, q, true, t);
    QuietRun(armed, events);
    OneShotFiresOnce(armed.linkTimer, t.now, t.now, PollTimes(events), gap);
  }

  // ---------- A pending change always ends ----------

  /** Neither a setter, nor an acknowledged request, nor a request from the peer, nor the end of a serial command. */
  predicate NoChange(n: Node, e: Event) {
    Quiet(n, e) || (e.Receive? && AcceptPacket(n, e.p).rx[0] != MSG_LINK_CHANGE_REQ)
  }

  /** The change is still pending after every one of these timely events, none of which changes settings. */
  predicate StaysPending(n: Node, events: seq<Event>, gap: nat)
    decreases |events|
  {
    n.linkTimer.started && (events == [] ||
      (NoChange(n, events[0]) && ReadsInOrder(n, events[0], Some(gap))
       && StaysPending(Step(n, events[0]), events[1..], gap)))
  }

  function PacketsReceived(events: seq<Event>): nat
    decreases |events|
  {
    if events == [] then 0 else (if events[0].Receive? then 1 else 0) + PacketsReceived(events[1..])
  }

  /** How many deadlines can still pass: one, and one more for each success still missing. */
  function DeadlinesLeft(n: Node): int {
    if Successes(n.link) >= SUCCESSFUL_PACKETS_BEFORE_LINK_IS_TRUSTED then 1
    else SUCCESSFUL_PACKETS_BEFORE_LINK_IS_TRUSTED + 1 - Successes(n.link)
  }

  /** The rollback timer runs from true time `r`, and the last poll found it unexpired. */
  predicate RunningFrom(n: Node, r: nat) {
    && n.linkTimer.started && n.linkTimer.reference == Wrap32(r)
    && r <= n.now <= r + n.linkTimer.timeout
  }

  /** A packet that is no request keeps the settings; it ends a pending change exactly from the fourth success on. */
  lemma PacketEffect(n: Node, p: Packet, h: Tick, sent: bool, t: Tick)
    requires Sound(n) && AcceptPacket(n, p).rx[0] != MSG_LINK_CHANGE_REQ
    ensures var m := ReceivePacket(n, p, h, sent, t);
      var response := AcceptPacket(n, p).rx[0] == MSG_LINK_CHANGE_RSP;
      && Sound(m) && m.address == n.address
      && m.link.cur == n.link.cur && m.link.prev == n.link.prev
      && Successes(m.link) > Successes(n.link)
      && (m.linkTimer.started <==>
            (n.linkTimer.started || response) && Successes(m.link) <= SUCCESSFUL_PACKETS_BEFORE_LINK_IS_TRUSTED)
      && (m.linkTimer.started ==>
            && m.now == HandledAt(n, p, h)
            && m.linkTimer == TimerState(if response then TRUST_TIMEOUT_MILLIS else n.linkTimer.timeout,
                 Wrap32(m.now), false, true, false))
  {
    var a := AcceptPacket(n, p);
    AcceptSound(n, p);
    HandleSound(a, p.src, h, sent);
    if a.rx[0] == MSG_LINK_CHANGE_RSP {
      ArmSound(a, TRUST_TIMEOUT_MILLIS, h);
    } else {
      TxSound(a.link, p.src, [MSG_HEARTBEAT_RSP, a.address], sent);
    }
    FinishSound(HandlePacket(a, p.src, h, sent), t);
  }

  lemma PendingStep(n: Node, r: nat, e: Event, gap: nat) returns (r': nat)
    requires Sound(n) && RunningFrom(n, r)
    requires NoChange(n, e) && ReadsInOrder(n, e, Some(gap)) && TRUST_TIMEOUT_MILLIS + gap < TWO_TO_THE_32
    requires Step(n, e).linkTimer.started
    ensures var m := Step(n, e);
      && Sound(m) && RunningFrom(m, r')
      && r' <= r + TRUST_TIMEOUT_MILLIS + gap
      && (if e.Receive?
          then Successes(n.link) < Successes(m.link) <= SUCCESSFUL_PACKETS_BEFORE_LINK_IS_TRUSTED
          else r' == r && Successes(m.link) >= Successes(n.link))
  {
    if e.Receive? {
      PacketEffect(n, e.p, e.h, e.sent, e.t);
      r' := HandledAt(n, e.p, e.h);
    } else {
      QuietStep(n, e);
      if e.Timers? {
        FiresExactly(n.linkTimer, r, e.t.now);
      }
      hide Step;
      r' := r;
    }
  }

  lemma Scale(a: int, b: int, k: nat)
    requires a <= b
    ensures a * k <= b * k
    ensures (a - 1) * k == a * k - k
  {}

  /**
   * While a change stays pending, at most three more packets arrive less the successes already there, and no more
   * than four times 24000 ms and the polling gap go by.
   */
  lemma {:induction false} PendingIsBounded(n: Node, r: nat, events: seq<Event>, gap: nat)
    requires Sound(n) && RunningFrom(n, r)
    requires StaysPending(n, events, gap) && TRUST_TIMEOUT_MILLIS + gap < TWO_TO_THE_32
    ensures Run(n, events).now <= r + DeadlinesLeft(n) * (TRUST_TIMEOUT_MILLIS + gap)
    ensures PacketsReceived(events) > 0 ==>
              Successes(n.link) + PacketsReceived(events) <= SUCCESSFUL_PACKETS_BEFORE_LINK_IS_TRUSTED
    decreases |events|
  {
    hide Step;
    hide NoChange;
    hide ReadsInOrder;
    var k := TRUST_TIMEOUT_MILLIS + gap;
    if events == [] {
      Scale(1, DeadlinesLeft(n), k);
    } else {
      var m := Step(n, events[0]);
      var r' := PendingStep(n, r, events[0], gap);
      PendingIsBounded(m, r', events[1..], gap);
      if events[0].Receive? {
        Scale(DeadlinesLeft(m) + 1, DeadlinesLeft(n), k);
      } else {
        Scale(DeadlinesLeft(m), DeadlinesLeft(n), k);
      }
    }
  }

  predicate AllTimelyNoChange(n: Node, events: seq<Event>, gap: nat)
    decreases |events|
  {
    events == [] ||
      (NoChange(n, events[0]) && ReadsInOrder(n, events[0], Some(gap))
       && AllTimelyNoChange(Step(n, events[0]), events[1..], gap))
  }

  lemma {:induction false} PendingOrEnded(n: Node, events: seq<Event>, gap: nat) returns (k: nat)
    requires AllTimelyNoChange(n, events, gap)
    ensures k <= |events|
    ensures StaysPending(n, events, gap) || !Run(n, events[..k]).linkTimer.started
    decreases |events|
  {
    hide Step;
    hide NoChange;
    hide ReadsInOrder;
    if !n.linkTimer.started || events == [] {
      k := 0;
    } else {
      var j := PendingOrEnded(Step(n, events[0]), events[1..], gap);
      k := j + 1;
      assert events[..k][1..] == events[1..][..j];
    }
  }

  /**
   * So once an acknowledged request has been followed by more than four times 24000 ms and the gap, with no setter,
   * request or serial command in between, the change has at some point ceased to be pending.
   */
  lemma ChangeAlwaysEnds(n: Node, dest: Byte, q: Quad, t: Tick, events: seq<Event>, gap: nat) returns (k: nat)
    requires Sound(n) && TRUST_TIMEOUT_MILLIS + gap < TWO_TO_THE_32
    requires AllTimelyNoChange(LinkChangeReq(n, dest, q, true, t), events, gap)
    requires Run(LinkChangeReq(n, dest, q, true, t), events).now > t.now + 4 * (TRUST_TIMEOUT_MILLIS + gap)
    ensures k <= |events|
    ensures !Run(LinkChangeReq(n, dest, q, true, t), events[..k]).linkTimer.started
  {
    ArmedRunsFrom(n, dest, q, t);
    hide LinkChangeReq;
    hide Step;
    var armed := LinkChangeReq(n, dest, q, true, t);
    k := PendingOrEnded(armed, events, gap);
    if StaysPending(armed, events, gap) {
      PendingIsBounded(armed, t.now, events, gap);
      Scale(DeadlinesLeft(armed), 4, TRUST_TIMEOUT_MILLIS + gap);
      assert false;
    }
  }

  // ---------- A change is kept as long as the link works ----------

  /**
   * Every poll that finds the change still pending comes within the timeout of the reference `r`, which each packet
   * renews; so far as the timer runs, nothing else is asked of when or how often packets come.
   */
  predicate KeptUp(n: Node, r: nat, events: seq<Event>)
    decreases |events|
  {
    events == [] ||
      (var e := events[0];
       && NoChange(n, e) && ReadsInOrder(n, e, None)
       && (e.Timers? && n.linkTimer.started ==> e.t.now <= r + n.linkTimer.timeout)
       && KeptUp(Step(n, e), if e.Receive? then HandledAt(n, e.p, e.h) else r, events[1..]))
  }

  /** What keeping up preserves: no change is pending, or it is pending and its timer is within its timeout. */
  predicate Keeping(n: Node, r: nat) {
    Sound(n) && (n.linkTimer.started ==> RunningFrom(n, r))
  }

  lemma KeepingStep(n: Node, r: nat, e: Event)
    requires Keeping(n, r) && NoChange(n, e) && ReadsInOrder(n, e, None)
    requires e.Timers? && n.linkTimer.started ==> e.t.now <= r + n.linkTimer.timeout
    ensures var m := Step(n, e);
      && Keeping(m, if e.Receive? then HandledAt(n, e.p, e.h) else r)
      && m.link.cur == n.link.cur && m.link.prev == n.link.prev
      && Successes(m.link) >= Successes(n.link) + (if e.Receive? then 1 else 0)
      && (!e.Receive? ==> m.linkTimer.started == n.linkTimer.started)
      && (e.Receive? && Successes(m.link) > SUCCESSFUL_PACKETS_BEFORE_LINK_IS_TRUSTED ==> !m.linkTimer.started)
      && (n.linkTimer.started && !m.linkTimer.started ==>
            Successes(m.link) > SUCCESSFUL_PACKETS_BEFORE_LINK_IS_TRUSTED)
  {
    if e.Receive? {
      PacketEffect(n, e.p, e.h, e.sent, e.t);
    } else {
      QuietStep(n, e);
      if e.Timers? && n.linkTimer.started {
        FiresExactly(n.linkTimer, r, e.t.now);
      }
      hide Step;
    }
  }

  lemma {:induction false} NoPacketsNoArming(n: Node, r: nat, events: seq<Event>)
    requires Keeping(n, r) && KeptUp(n, r, events) && PacketsReceived(events) == 0
    ensures Run(n, events).linkTimer.started == n.linkTimer.started
    decreases |events|
  {
    hide Step;
    hide NoChange;
    hide ReadsInOrder;
    if events == [] {
    } else {
      KeepingStep(n, r, events[0]);
      NoPacketsNoArming(Step(n, events[0]), r, events[1..]);
    }
  }

  /**
   * From an answered request on, a client that keeps up never rolls back: it stays on the new settings, and with the
   * packet that completes four successes the change is no longer pending, by trust.
   */
  lemma {:induction false} ChangeIsKept(n: Node, r: nat, events: seq<Event>)
    requires Keeping(n, r) && KeptUp(n, r, events)
    ensures var m := Run(n, events);
      && Sound(m) && m.link.cur == n.link.cur && m.link.prev == n.link.prev
      && Successes(m.link) >= Successes(n.link) + PacketsReceived(events)
      && (n.linkTimer.started && !m.linkTimer.started ==>
            Successes(m.link) > SUCCESSFUL_PACKETS_BEFORE_LINK_IS_TRUSTED)
      && (PacketsReceived(events) > 0
          && Successes(n.link) + PacketsReceived(events) > SUCCESSFUL_PACKETS_BEFORE_LINK_IS_TRUSTED ==>
            !m.linkTimer.started)
    decreases |events|
  {
    hide Step;
    hide NoChange;
    hide ReadsInOrder;
    if events == [] {
    } else {
      var e := events[0];
      var m := Step(n, e);
      KeepingStep(n, r, e);
      ChangeIsKept(m, if e.Receive? then HandledAt(n, e.p, e.h) else r, events[1..]);
      if e.Receive? && PacketsReceived(events[1..]) == 0 {
        NoPacketsNoArming(m, HandledAt(n, e.p, e.h), events[1..]);
      }
    }
  }

  /** The response is what brings a client into that state: 24000 ms from the moment it is handled. */
  lemma ResponseStartsKeeping(n: Node, p: Packet, h: Tick, sent: bool, t: Tick)
    requires Sound(n) && AcceptPacket(n, p).rx[0] == MSG_LINK_CHANGE_RSP
    requires Successes(n.link) < SUCCESSFUL_PACKETS_BEFORE_LINK_IS_TRUSTED
    ensures var m := ReceivePacket(n, p, h, sent, t);
      m.linkTimer.started && Keeping(m, h.now) && m.linkTimer.timeout == TRUST_TIMEOUT_MILLIS
      && m.link.cur == n.link.cur
  {
    var a := AcceptPacket(n, p);
    AcceptSound(n, p);
    ArmSound(a, TRUST_TIMEOUT_MILLIS, h);
    FinishSound(ArmLinkTimer(a, TRUST_TIMEOUT_MILLIS, h), t);
  }

  /**
   * A response that is read only after the rollback finds a client with nothing pending, arms its timer all the same,
   * and, if no packet follows, takes it to the settings it had just left.
   */
  lemma LateResponseLeavesHome(n: Node, p: Packet, h: Tick, sent: bool, t: Tick, poll: Tick)
    requires Sound(n) && AcceptPacket(n, p).rx[0] == MSG_LINK_CHANGE_RSP && !n.linkTimer.started
    requires Successes(n.link) < SUCCESSFUL_PACKETS_BEFORE_LINK_IS_TRUSTED
    requires h.now + TRUST_TIMEOUT_MILLIS < poll.now < h.now + TWO_TO_THE_32
    ensures ServiceTimers(ReceivePacket(n, p, h, sent, t), poll).link.cur == n.link.prev
  {
    ResponseStartsKeeping(n, p, h, sent, t);
    PacketEffect(n, p, h, sent, t);
    var m := ReceivePacket(n, p, h, sent, t);
    FiresExactly(m.linkTimer, h.now, poll.now);
    TimersSound(m, poll);
  }
}
