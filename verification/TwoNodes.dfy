/**
 * A client that asks for link changes and the server it asks, joined by a radio channel that loses messages and
 * acknowledgements at will. Each step runs the operations of `Node` on one side.
 *
 * The channel promises this much: a message arrives only between radios on the same link, at a node that is not
 * itself waiting for an acknowledgement; a send that reports success has arrived; a message arrives at most once.
 * A send that reports failure may have arrived.
 */
module TwoNodes {
  import opened Platform
  import opened Settings
  import opened Timer
  import opened Node
  import opened NodeInvariants

  /** Whether the client is waiting for its request to be acknowledged, and whether the request has arrived. */
  datatype Client = Idle | Waiting(q: Quad, delivered: bool)

  /** Whether the server is waiting for its response to be acknowledged, and whether the response has arrived. */
  datatype Server = Polling | Probing(delivered: bool)

  datatype System = System(
    client: Node,
    server: Node,
    asking: Client,
    serving: Server,
    agreed: Quad,      // history: the settings of the latest acknowledged response, at first the shared ones
    acked: bool,       // history: the response to the client's latest change has been acknowledged
    rolledBack: bool,  // history: the client has rolled that change back
    lapsed: bool)      // history: both have happened to one change

  datatype Move =
    | ClientRequests(q: Quad)
    | DeliverRequest
    | RequestReturns(ok: bool, t: Tick)
    | DeliverResponse(h: Tick, t: Tick)
    | ResponseReturns(ok: bool, t: Tick)
    | ClientPolls(t: Tick)
    | ClientReceives(p: Packet, h: Tick, sent: bool, t: Tick)
    | ClientSends(dest: Byte, buf: seq<Byte>, sent: bool)
    | ClientHeartbeats(on: bool)
    | ServerPolls(t: Tick)
    | ServerReceives(p: Packet, h: Tick, sent: bool, t: Tick)
    | ServerSends(dest: Byte, buf: seq<Byte>, sent: bool)
    | ServerHeartbeats(on: bool)

  predicate Connected(s: System) {
    SameLink(s.client.link.cur, s.server.link.cur)
  }

  /** Any message that is not part of a link change. */
  predicate Plain(p: Packet) {
    p.payload != [] && p.payload[0] != MSG_LINK_CHANGE_REQ && p.payload[0] != MSG_LINK_CHANGE_RSP
  }

  predicate Enabled(s: System, step: Move) {
    match step
    case ClientRequests(_) => s.asking.Idle?
    case DeliverRequest => s.asking.Waiting? && !s.asking.delivered && s.serving.Polling? && Connected(s)
    case RequestReturns(ok, _) => s.asking.Waiting? && (ok ==> s.asking.delivered)
    case DeliverResponse(_, _) => s.asking.Idle? && s.serving.Probing? && !s.serving.delivered && Connected(s)
    case ResponseReturns(ok, _) => s.serving.Probing? && (ok ==> s.serving.delivered)
    case ClientPolls(_) => s.asking.Idle?
    case ClientReceives(p, _, _, _) => s.asking.Idle? && s.serving.Polling? && Connected(s) && Plain(p)
    case ClientSends(dest, _, sent) =>
      s.asking.Idle? && (sent && dest != BROADCAST_ADDRESS ==> s.serving.Polling? && Connected(s))
    case ClientHeartbeats(_) => s.asking.Idle?
    case ServerPolls(_) => s.serving.Polling?
    case ServerReceives(p, _, _, _) => s.serving.Polling? && Plain(p)
    case ServerSends(_, _, _) => s.serving.Polling?
    case ServerHeartbeats(_) => s.serving.Polling?
  }

  /** The server's receive step up to the moment its response is on the air. */
  function StartServing(n: Node, p: Packet): Node {
    var accepted := AcceptPacket(n, p);
    accepted.(link := StartLinkChange(accepted.link, p.src, QuadFrom(accepted.rx)))
  }

  /** The rest of that receive step, once the send has returned. */
  function EndServing(n: Node, ok: bool, t: Tick): Node {
    FinishPacket(n.(link := EndLinkChange(n.link, ok)), t)
  }

  function WithHeartbeats(n: Node, on: bool): Node {
    n.(heartbeatTimer := if on then n.heartbeatTimer.Start() else n.heartbeatTimer.Pause())
  }

  function Next(s: System, step: Move): System
    requires Enabled(s, step)
  {
    match step
    case ClientRequests(q) =>
      s.(client := SendLinkChangeReq(s.client, s.server.address, q), asking := Waiting(q, false))
    case DeliverRequest =>
      var p := Packet(s.client.address, QuadMessage(MSG_LINK_CHANGE_REQ, s.asking.q));
      s.(server := StartServing(s.server, p), serving := Probing(false), asking := s.asking.(delivered := true))
    case RequestReturns(ok, t) =>
      s.(client := EndLinkChangeReq(s.client, s.asking.q, ok, t), asking := Idle,
         acked := s.acked && !ok, rolledBack := s.rolledBack && !ok)
    case DeliverResponse(h, t) =>
      var p := Packet(s.server.address, QuadMessage(MSG_LINK_CHANGE_RSP, s.server.link.cur));
      s.(client := ReceivePacket(s.client, p, h, false, t), serving := Probing(true))
    case ResponseReturns(ok, t) =>
      s.(server := EndServing(s.server, ok, t), serving := Polling,
         agreed := if ok then s.server.link.cur else s.agreed,
         acked := s.acked || ok, lapsed := s.lapsed || (ok && s.rolledBack))
    case ClientPolls(t) =>
      var fires := s.client.linkTimer.Fires(Wrap32(t.now));
      s.(client := ServiceTimers(s.client, t),
         rolledBack := s.rolledBack || fires, lapsed := s.lapsed || (fires && s.acked))
    case ClientReceives(p, h, sent, t) => s.(client := ReceivePacket(s.client, p, h, sent, t))
    case ClientSends(dest, buf, sent) =>
      s.(client := s.client.(link := ServiceTx(s.client.link, dest, buf, sent)))
    case ClientHeartbeats(on) => s.(client := WithHeartbeats(s.client, on))
    case ServerPolls(t) => s.(server := ServiceTimers(s.server, t))
    case ServerReceives(p, h, sent, t) => s.(server := ReceivePacket(s.server, p, h, sent, t))
    case ServerSends(dest, buf, sent) =>
      s.(server := s.server.(link := ServiceTx(s.server.link, dest, buf, sent)))
    case ServerHeartbeats(on) => s.(server := WithHeartbeats(s.server, on))
  }

  predicate Possible(s: System, steps: seq<Move>)
    decreases |steps|
  {
    steps == [] || (Enabled(s, steps[0]) && Possible(Next(s, steps[0]), steps[1..]))
  }

  function After(s: System, steps: seq<Move>): System
    requires Possible(s, steps)
    decreases |steps|
  {
    if steps == [] then s else After(Next(s, steps[0]), steps[1..])
  }

  /** Both nodes are set up on the same settings with no link change under way. */
  predicate Initial(s: System) {
    && Sound(s.client) && Sound(s.server)
    && s.client.link.cur == s.server.link.cur == s.agreed
    && !s.client.linkTimer.started && !s.server.linkTimer.started
    && s.asking == Idle && s.serving == Polling
    && !s.acked && !s.rolledBack && !s.lapsed
  }

  /** No link change is under way on either side. */
  predicate Quiescent(s: System) {
    s.asking.Idle? && s.serving.Polling? && !s.client.linkTimer.started
  }

  predicate Agree(s: System) {
    s.client.link.cur == s.server.link.cur
  }

  // ---------- The two halves of a server's receive step are that step ----------

  lemma ServingIsReceiving(n: Node, src: Byte, q: Quad, h: Tick, ok: bool, t: Tick)
    ensures var p := Packet(src, QuadMessage(MSG_LINK_CHANGE_REQ, q));
      EndServing(StartServing(n, p), ok, t) == ReceivePacket(n, p, h, ok, t)
  {
    QuadRoundTrip(MSG_LINK_CHANGE_REQ, q, n.rx);
  }

  // ---------- The moves around a blocking send make up one call ----------

  /** A client that waits for an acknowledgement does nothing else until its send returns. */
  lemma {:induction false} WaitingIsBlocked(s: System, steps: seq<Move>)
    requires s.asking.Waiting? && Possible(s, steps) && forall i :: 0 <= i < |steps| ==> !steps[i].RequestReturns?
    ensures var e := After(s, steps); e.client == s.client && e.asking.Waiting? && e.asking.q == s.asking.q
    decreases |steps|
  {
    if steps == [] {
    } else {
      WaitingIsBlocked(Next(s, steps[0]), steps[1..]);
    }
  }

  /** Whatever channel and server do between its two moves, a client's request is one call of `linkChangeReq`. */
  lemma RequestingIsOneCall(s: System, q: Quad, between: seq<Move>, ok: bool, t: Tick)
    requires Enabled(s, ClientRequests(q)) && Possible(Next(s, ClientRequests(q)), between)
    requires forall i :: 0 <= i < |between| ==> !between[i].RequestReturns?
    requires Enabled(After(Next(s, ClientRequests(q)), between), RequestReturns(ok, t))
    ensures var e := After(Next(s, ClientRequests(q)), between);
      Next(e, RequestReturns(ok, t)).client == LinkChangeReq(s.client, s.server.address, q, ok, t)
  {
    WaitingIsBlocked(Next(s, ClientRequests(q)), between);
  }

  lemma {:induction false} ProbingIsBlocked(s: System, steps: seq<Move>)
    requires s.serving.Probing? && Possible(s, steps) && forall i :: 0 <= i < |steps| ==> !steps[i].ResponseReturns?
    ensures var e := After(s, steps); e.server == s.server && e.serving.Probing?
    decreases |steps|
  {
    if steps == [] {
    } else {
      ProbingIsBlocked(Next(s, steps[0]), steps[1..]);
    }
  }

  /** Likewise the server's two moves are one receive step, for the request as the client has sent it. */
  lemma ServingIsOneReceive(s: System, between: seq<Move>, h: Tick, ok: bool, t: Tick)
    requires Enabled(s, DeliverRequest) && Possible(Next(s, DeliverRequest), between)
    requires forall i :: 0 <= i < |between| ==> !between[i].ResponseReturns?
    requires Enabled(After(Next(s, DeliverRequest), between), ResponseReturns(ok, t))
    ensures var e := After(Next(s, DeliverRequest), between);
      var p := Packet(s.client.address, QuadMessage(MSG_LINK_CHANGE_REQ, s.asking.q));
      Next(e, ResponseReturns(ok, t)).server == ReceivePacket(s.server, p, h, ok, t)
  {
    ProbingIsBlocked(Next(s, DeliverRequest), between);
    ServingIsReceiving(s.server, s.client.address, s.asking.q, h, ok, t);
  }

  // ---------- What the operations of a link change do to a node ----------

  lemma StartServingEffect(n: Node, src: Byte, q: Quad)
    requires Sound(n)
    ensures var m := StartServing(n, Packet(src, QuadMessage(MSG_LINK_CHANGE_REQ, q)));
      && Sound(m) && m.address == n.address && m.linkTimer == n.linkTimer
      && m.link.cur == Effective(n.link.cur, q) && m.link.prev == Fallback(n.link.cur, n.link.prev, q)
      && m.link.trace.last == Transmitted(QuadMessage(MSG_LINK_CHANGE_RSP, m.link.cur), src)
  {
    var p := Packet(src, QuadMessage(MSG_LINK_CHANGE_REQ, q));
    QuadRoundTrip(MSG_LINK_CHANGE_REQ, q, n.rx);
    AcceptSound(n, p);
    var l := AcceptPacket(n, p).link;
    ApplySound(l, q);
    ApplyAny(l, q);
    RecordSound(ApplyQuad(l, q), StartLinkChange(l, src, q).trace.last);
  }

  lemma EndServingEffect(n: Node, ok: bool, t: Tick)
    requires Sound(n) && !n.linkTimer.started
    ensures var m := EndServing(n, ok, t);
      && Sound(m) && m.address == n.address && !m.linkTimer.started
      && m.link.cur == (if ok then n.link.cur else n.link.prev)
      && m.link.prev == (if ok then n.link.prev else n.link.cur)
  {
    ApplySound(n.link, n.link.prev);
    ApplyValid(n.link, n.link.prev);
    FinishSound(n.(link := EndLinkChange(n.link, ok)), t);
  }

  lemma RequestEffect(n: Node, q: Quad, ok: bool, t: Tick)
    requires Sound(n)
    ensures var m := EndLinkChangeReq(n, q, ok, t);
      if ok
      then && Sound(m) && m.address == n.address
           && m.linkTimer == TimerState(LINK_CHANGE_TIMEOUT_MILLIS, Wrap32(t.now), false, true, false)
           && m.link.cur == Effective(n.link.cur, q) && m.link.prev == Fallback(n.link.cur, n.link.prev, q)
           && Successes(m.link) == (if AnyAccepted(q) then 0 else Successes(n.link))
      else m == n
  {
    if ok {
      ApplySound(n.link, q);
      ApplyAny(n.link, q);
      ArmSound(n.(link := ApplyQuad(n.link, q)), LINK_CHANGE_TIMEOUT_MILLIS, t);
    }
  }

  lemma ResponseEffect(n: Node, src: Byte, q: Quad, h: Tick, t: Tick)
    requires Sound(n)
    ensures var m := ReceivePacket(n, Packet(src, QuadMessage(MSG_LINK_CHANGE_RSP, q)), h, false, t);
      && Sound(m) && m.address == n.address && m.link.cur == n.link.cur && m.link.prev == n.link.prev
      && Successes(m.link) == Successes(n.link) + 1
      && (m.linkTimer.started <==> Successes(n.link) < SUCCESSFUL_PACKETS_BEFORE_LINK_IS_TRUSTED)
      && (m.linkTimer.started ==>
            m.linkTimer == TimerState(TRUST_TIMEOUT_MILLIS, Wrap32(h.now), false, true, false))
  {
    var p := Packet(src, QuadMessage(MSG_LINK_CHANGE_RSP, q));
    QuadRoundTrip(MSG_LINK_CHANGE_RSP, q, n.rx);
    AcceptSound(n, p);
    ArmSound(AcceptPacket(n, p), TRUST_TIMEOUT_MILLIS, h);
    FinishSound(ArmLinkTimer(AcceptPacket(n, p), TRUST_TIMEOUT_MILLIS, h), t);
  }

  lemma PlainEffect(n: Node, p: Packet, h: Tick, sent: bool, t: Tick)
    requires Sound(n) && Plain(p)
    ensures var m := ReceivePacket(n, p, h, sent, t);
      && Sound(m) && m.address == n.address && m.link.cur == n.link.cur && m.link.prev == n.link.prev
      && Successes(m.link) > Successes(n.link)
      && (m.linkTimer.started <==>
            n.linkTimer.started && Successes(m.link) <= SUCCESSFUL_PACKETS_BEFORE_LINK_IS_TRUSTED)
  {
    AcceptSound(n, p);
    var a := AcceptPacket(n, p);
    assert a.rx[0] == p.payload[0];
    HandleSound(a, p.src, h, sent);
    TxSound(a.link, p.src, [MSG_HEARTBEAT_RSP, a.address], sent);
    FinishSound(HandlePacket(a, p.src, h, sent), t);
  }

  // ---------- What the moves do to the two nodes ----------

  predicate NodesSound(s: System) {
    Sound(s.client) && Sound(s.server) && !s.server.linkTimer.started
  }

  predicate KeepsSettings(n: Node, m: Node) {
    m.address == n.address && m.link.cur == n.link.cur && m.link.prev == n.link.prev
  }

  /** A move that leaves a pending change as it is. */
  predicate KeepsChange(n: Node, m: Node) {
    KeepsSettings(n, m) && m.linkTimer == n.linkTimer && Successes(m.link) == Successes(n.link)
  }

  /** `m` is `n` switched to the settings that `q` leads to, with its fallback. */
  predicate Switches(n: Node, m: Node, q: Quad) {
    && m.address == n.address
    && m.link.cur == Effective(n.link.cur, q) && m.link.prev == Fallback(n.link.cur, n.link.prev, q)
  }

  /** `m` is `n` with current and previous settings exchanged. */
  predicate FallsBack(n: Node, m: Node) {
    m.address == n.address && m.link.cur == n.link.prev && m.link.prev == n.link.cur
  }

  /** What a move does to settings, to what is pending and to the successes counted: all that the protocol rests on. */
  predicate Effect(s: System, step: Move, s': System) {
    var c, v, c', v' := s.client, s.server, s'.client, s'.server;
    match step
    case ClientRequests(q) => s' == s.(client := c', asking := Waiting(q, false)) && KeepsChange(c, c')
    case DeliverRequest =>
      && s.asking.Waiting?
      && s' == s.(server := v', serving := Probing(false), asking := s.asking.(delivered := true))
      && Switches(v, v', s.asking.q)
    case RequestReturns(ok, t) =>
      && s.asking.Waiting?
      && s' == s.(client := c', asking := Idle, acked := s.acked && !ok, rolledBack := s.rolledBack && !ok)
      && (if ok
          then && Switches(c, c', s.asking.q)
               && c'.linkTimer == TimerState(LINK_CHANGE_TIMEOUT_MILLIS, Wrap32(t.now), false, true, false)
               && Successes(c'.link) == (if AnyAccepted(s.asking.q) then 0 else Successes(c.link))
          else c' == c)
    case DeliverResponse(h, _) =>
      && s' == s.(client := c', serving := Probing(true)) && KeepsSettings(c, c')
      && Successes(c'.link) == Successes(c.link) + 1
      && (c'.linkTimer.started <==> Successes(c.link) < SUCCESSFUL_PACKETS_BEFORE_LINK_IS_TRUSTED)
      && (c'.linkTimer.started ==>
            c'.linkTimer == TimerState(TRUST_TIMEOUT_MILLIS, Wrap32(h.now), false, true, false))
    case ResponseReturns(ok, _) =>
      && s' == s.(server := v', serving := Polling, agreed := if ok then v.link.cur else s.agreed,
                  acked := s.acked || ok, lapsed := s.lapsed || (ok && s.rolledBack))
      && (if ok then KeepsSettings(v, v') else FallsBack(v, v'))
    case ClientPolls(t) =>
      var fires := c.linkTimer.Fires(Wrap32(t.now));
      && s' == s.(client := c', rolledBack := s.rolledBack || fires, lapsed := s.lapsed || (fires && s.acked))
      && (if fires then FallsBack(c, c') && !c'.linkTimer.started
          else KeepsSettings(c, c') && c'.linkTimer.started == c.linkTimer.started
               && Successes(c'.link) == Successes(c.link))
    case ClientReceives(_, _, _, _) =>
      && s' == s.(client := c') && KeepsSettings(c, c') && Successes(c'.link) > Successes(c.link)
      && (c'.linkTimer.started <==>
            c.linkTimer.started && Successes(c'.link) <= SUCCESSFUL_PACKETS_BEFORE_LINK_IS_TRUSTED)
    case ClientSends(dest, _, sent) =>
      && s' == s.(client := c') && KeepsSettings(c, c') && c'.linkTimer == c.linkTimer
      && Successes(c.link) <= Successes(c'.link)
      && (Successes(c'.link) > Successes(c.link) ==> sent && dest != BROADCAST_ADDRESS)
    case ClientHeartbeats(_) => s' == s.(client := c') && KeepsChange(c, c')
    case ServerPolls(_) => s' == s.(server := v') && KeepsSettings(v, v')
    case ServerReceives(_, _, _, _) => s' == s.(server := v') && KeepsSettings(v, v')
    case ServerSends(_, _, _) => s' == s.(server := v') && KeepsSettings(v, v')
    case ServerHeartbeats(_) => s' == s.(server := v') && KeepsSettings(v, v')
  }

  lemma MoveEffect(s: System, step: Move)
    requires NodesSound(s) && Enabled(s, step)
    ensures NodesSound(Next(s, step)) && Effect(s, step, Next(s, step))
  {
    hide SoundLink;
    hide StartServing;
    hide EndServing;
    hide EndLinkChangeReq;
    hide ReceivePacket;
    hide ServiceTimers;
    hide ServiceTx;
    hide QuadMessage;
    hide Effective;
    hide Fallback;
    match step
    case ClientRequests(q) =>
      RecordSound(s.client.link, Transmitted(QuadMessage(MSG_LINK_CHANGE_REQ, q), s.server.address));
    case DeliverRequest => StartServingEffect(s.server, s.client.address, s.asking.q);
    case RequestReturns(ok, t) => RequestEffect(s.client, s.asking.q, ok, t);
    case DeliverResponse(h, t) => ResponseEffect(s.client, s.server.address, s.server.link.cur, h, t);
    case ResponseReturns(ok, t) => EndServingEffect(s.server, ok, t);
    case ClientPolls(t) => TimersSound(s.client, t);
    case ClientReceives(p, h, sent, t) => PlainEffect(s.client, p, h, sent, t);
    case ClientSends(dest, buf, sent) => TxSound(s.client.link, dest, buf, sent);
    case ClientHeartbeats(on) =>
    case ServerPolls(t) => TimersSound(s.server, t);
    case ServerReceives(p, h, sent, t) => PlainEffect(s.server, p, h, sent, t);
    case ServerSends(dest, buf, sent) => TxSound(s.server.link, dest, buf, sent);
    case ServerHeartbeats(on) =>
  }

  // ---------- What arrives is what was sent ----------

  /** The latest thing `n` has done is to put `act` on the air. */
  predicate LastDid(n: Node, act: Act) {
    n.link.trace.Snoc? && n.link.trace.last == act
  }

  /** A node that waits for an acknowledgement has put its message on the air last of all. */
  predicate OnAir(s: System) {
    && (s.asking.Waiting? ==>
          LastDid(s.client, Transmitted(QuadMessage(MSG_LINK_CHANGE_REQ, s.asking.q), s.server.address)))
    && (s.serving.Probing? ==>
          LastDid(s.server, Transmitted(QuadMessage(MSG_LINK_CHANGE_RSP, s.server.link.cur), s.client.address)))
  }

  lemma StepKeepsOnAir(s: System, step: Move)
    requires NodesSound(s) && OnAir(s) && Enabled(s, step)
    ensures NodesSound(Next(s, step)) && OnAir(Next(s, step))
  {
    MoveEffect(s, step);
    if step.DeliverRequest? {
      StartServingEffect(s.server, s.client.address, s.asking.q);
    }
  }

  lemma {:induction false} RunKeepsOnAir(s: System, steps: seq<Move>)
    requires NodesSound(s) && OnAir(s) && Possible(s, steps)
    ensures NodesSound(After(s, steps)) && OnAir(After(s, steps))
    decreases |steps|
  {
    hide Next;
    hide Enabled;
    if steps == [] {
    } else {
      StepKeepsOnAir(s, steps[0]);
      RunKeepsOnAir(Next(s, steps[0]), steps[1..]);
    }
  }

  /** `p` is the last message that `n` has put on the air, addressed to `dest`, as it arrives there. */
  predicate ArrivesAs(n: Node, dest: Byte, p: Packet) {
    LastDid(n, Transmitted(p.payload, dest)) && p.src == n.address
  }

  /**
   * Over every run, a request or response that arrives is the last message the other side has put on the air, from
   * its address, addressed to the node that receives it; and the settings in it are read back unchanged.
   */
  lemma DeliveredAsSent(s: System, steps: seq<Move>, step: Move) returns (p: Packet)
    requires Initial(s) && Possible(s, steps) && Enabled(After(s, steps), step)
    requires step.DeliverRequest? || step.DeliverResponse?
    ensures var e := After(s, steps);
      if step.DeliverRequest?
      then && ArrivesAs(e.client, e.server.address, p)
           && Next(e, step).server == StartServing(e.server, p)
           && QuadFrom(Store(e.server.rx, p.payload)) == e.asking.q
      else && ArrivesAs(e.server, e.client.address, p)
           && Next(e, step).client == ReceivePacket(e.client, p, step.h, false, step.t)
           && QuadFrom(Store(e.client.rx, p.payload)) == e.server.link.cur
  {
    hide StartServing;
    hide ReceivePacket;
    RunKeepsOnAir(s, steps);
    var e := After(s, steps);
    if step.DeliverRequest? {
      QuadRoundTrip(MSG_LINK_CHANGE_REQ, e.asking.q, e.server.rx);
      p := Packet(e.client.address, QuadMessage(MSG_LINK_CHANGE_REQ, e.asking.q));
    } else {
      QuadRoundTrip(MSG_LINK_CHANGE_RSP, e.server.link.cur, e.client.rx);
      p := Packet(e.server.address, QuadMessage(MSG_LINK_CHANGE_RSP, e.server.link.cur));
    }
  }

  // ---------- The protocol's invariant ----------

  /** The client is on the agreed settings; a change still pending there is one the server has committed to. */
  predicate AtHome(s: System) {
    && s.client.link.cur == s.agreed
    && (s.client.linkTimer.started ==> s.acked && !SameLink(s.client.link.prev, s.agreed))
  }

  /** The client has left the agreed settings, has a timer running that will take it back, and cannot yet trust. */
  predicate IsAway(s: System) {
    && s.client.linkTimer.started
    && s.client.link.prev == s.agreed && !SameLink(s.client.link.cur, s.agreed)
    && !s.acked && !s.rolledBack
    && Successes(s.client.link) <= 1
  }

  /** The server polls on the agreed settings, or probes a link it will leave for them. */
  predicate ServerConsistent(s: System) {
    match s.serving
    case Polling => s.server.link.cur == s.agreed
    case Probing(delivered) =>
      && s.server.link.prev == s.agreed && !SameLink(s.server.link.cur, s.agreed)
      && (IsAway(s) ==> s.client.link.cur == s.server.link.cur && (!delivered ==> Successes(s.client.link) == 0))
      && (AtHome(s) && delivered ==> s.rolledBack && !s.client.linkTimer.started)
      && (s.asking.Waiting? && s.asking.delivered ==>
            !delivered && Effective(s.client.link.cur, s.asking.q) == s.server.link.cur)
  }

  /** Either side would get its own settings back, if it switched to what `q` leads to and then fell back. */
  predicate BothRestorable(s: System, q: Quad) {
    && Restorable(s.client.link.cur, s.client.link.prev, q)
    && Restorable(s.server.link.cur, s.server.link.prev, q)
  }

  predicate AskingConsistent(s: System) {
    s.asking.Waiting? ==>
      && !SameLink(Effective(s.client.link.cur, s.asking.q), s.client.link.cur)
      && Restorable(s.client.link.cur, s.client.link.prev, s.asking.q)
      && (if s.asking.delivered then AtHome(s)
          else Restorable(s.server.link.cur, s.server.link.prev, s.asking.q))
  }

  predicate Protocol(s: System) {
    && (AtHome(s) || IsAway(s)) && !(s.acked && s.rolledBack)
    && ServerConsistent(s) && AskingConsistent(s)
  }

  predicate Inv(s: System) {
    NodesSound(s) && (s.lapsed || Protocol(s))
  }

  /**
   * Requests lead to another link, not merely to another power on the same one, and from settings that both sides can
   * get back. A valid request always meets the second half.
   */
  predicate AsksForOtherLink(s: System, step: Move) {
    step.ClientRequests? ==>
      BothRestorable(s, step.q) && !SameLink(Effective(s.client.link.cur, step.q), s.client.link.cur)
  }

  predicate AlwaysOtherLink(s: System, steps: seq<Move>)
    requires Possible(s, steps)
    decreases |steps|
  {
    steps == [] || (AsksForOtherLink(s, steps[0]) && AlwaysOtherLink(Next(s, steps[0]), steps[1..]))
  }

  /** For requests whose fields are all valid that comes down to asking for another link. */
  lemma ValidAsksForOtherLink(s: System, q: Quad)
    requires ValidQuad(q)
    ensures AsksForOtherLink(s, ClientRequests(q)) <==> !SameLink(q, s.client.link.cur)
  {}

  /** Where a request is restorable, the fallback it leaves is the settings it was made from. */
  lemma RestorableFallback(cur: Quad, prev: Quad, q: Quad)
    ensures Fallback(cur, prev, q) == cur <==> Restorable(cur, prev, q)
    ensures Restorable(prev, cur, q) <==> Restorable(cur, prev, q)
    ensures !SameLink(Effective(cur, q), cur) ==> AnyAccepted(q)
  {}

  /** The moves that make up a link change, as against those a node makes on its own account. */
  predicate PartOfChange(step: Move) {
    step.ClientRequests? || step.DeliverRequest? || step.RequestReturns? || step.DeliverResponse?
    || step.ResponseReturns?
  }

  lemma OtherMoveKeepsProtocol(s: System, step: Move, s': System)
    requires Protocol(s) && Enabled(s, step) && Effect(s, step, s') && !PartOfChange(step)
    ensures s'.lapsed || Protocol(s')
  {}

  lemma ChangeKeepsProtocol(s: System, step: Move, s': System)
    requires Protocol(s) && Enabled(s, step) && Effect(s, step, s') && PartOfChange(step) && AsksForOtherLink(s, step)
    ensures s'.lapsed || Protocol(s')
  {
    hide Effective;
    hide Fallback;
    hide Restorable;
    hide AnyAccepted;
    if s.asking.Waiting? {
      RestorableFallback(s.client.link.cur, s.client.link.prev, s.asking.q);
      RestorableFallback(s.server.link.cur, s.server.link.prev, s.asking.q);
    }
  }

  lemma StepKeepsProtocol(s: System, step: Move)
    requires NodesSound(s) && Protocol(s) && !s.lapsed && Enabled(s, step) && AsksForOtherLink(s, step)
    ensures NodesSound(Next(s, step)) && (Next(s, step).lapsed || Protocol(Next(s, step)))
  {
    hide Next;
    hide Enabled;
    hide Effect;
    hide Protocol;
    MoveEffect(s, step);
    if PartOfChange(step) {
      ChangeKeepsProtocol(s, step, Next(s, step));
    } else {
      OtherMoveKeepsProtocol(s, step, Next(s, step));
    }
  }

  lemma StepKeepsInv(s: System, step: Move)
    requires Inv(s) && Enabled(s, step) && AsksForOtherLink(s, step)
    ensures Inv(Next(s, step))
  {
    if s.lapsed {
      MoveEffect(s, step);
    } else {
      StepKeepsProtocol(s, step);
    }
  }

  lemma {:induction false} RunKeepsInv(s: System, steps: seq<Move>)
    requires Inv(s) && Possible(s, steps) && AlwaysOtherLink(s, steps)
    ensures Inv(After(s, steps))
    decreases |steps|
  {
    hide Next;
    hide Enabled;
    hide Inv;
    hide AsksForOtherLink;
    if steps == [] {
    } else {
      StepKeepsInv(s, steps[0]);
      RunKeepsInv(Next(s, steps[0]), steps[1..]);
    }
  }
}
