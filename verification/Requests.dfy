/** For which requested settings the agreement guarantee holds, and runs that show what happens for the others. */
module Requests {
  import opened Platform
  import opened Settings
  import opened Timer
  import opened Node
  import opened NodeInvariants
  import opened TwoNodes
  import opened Agreement

  predicate NoRequests(steps: seq<Move>) {
    forall i :: 0 <= i < |steps| ==> !steps[i].ClientRequests?
  }

  /** At most one request is made, and it is for `q`. */
  predicate OneRound(steps: seq<Move>, q: Quad)
    decreases |steps|
  {
    steps == []
    || (if steps[0].ClientRequests? then steps[0].q == q && NoRequests(steps[1..]) else OneRound(steps[1..], q))
  }

  // ---------- Runs in which time does not go backwards ----------

  /** The clock readings of a move in the client's time. The server's clock is `skew` ms ahead of the client's. */
  function Readings(step: Move, skew: int): seq<int> {
    match step
    case RequestReturns(_, t) => [t.now]
    case DeliverResponse(h, t) => [h.now, t.now]
    case ResponseReturns(_, t) => [t.now - skew]
    case ClientPolls(t) => [t.now]
    case ClientReceives(_, h, _, t) => [h.now, t.now]
    case ServerPolls(t) => [t.now - skew]
    case ServerReceives(_, h, _, t) => [h.now - skew, t.now - skew]
    case _ => []
  }

  function AllReadings(steps: seq<Move>, skew: int): seq<int>
    decreases |steps|
  {
    if steps == [] then [] else Readings(steps[0], skew) + AllReadings(steps[1..], skew)
  }

  predicate Ascends(time: int, readings: seq<int>) {
    && (forall i :: 0 <= i < |readings| ==> time <= readings[i])
    && (forall i, j :: 0 <= i < j < |readings| ==> readings[i] <= readings[j])
  }

  /** From `time` on, the two nodes read their clocks in the order of the moves. */
  predicate InOrder(steps: seq<Move>, time: int, skew: int) {
    Ascends(time, AllReadings(steps, skew))
  }

  /** How far the server's clock is ahead, if both nodes have just read theirs. */
  function Skew(s: System): int {
    s.server.now - s.client.now
  }

  /** In this run the moves follow each other, and the clock readings those that the nodes made last. */
  predicate Timely(s: System, steps: seq<Move>) {
    InOrder(steps, s.client.now, Skew(s))
  }

  predicate ReadsAt(step: Move, time: int, skew: int) {
    forall r <- Readings(step, skew) :: r == time
  }

  /** Every reading in `steps` is made at `time`. */
  predicate AtOnce(steps: seq<Move>, time: int, skew: int) {
    forall i :: 0 <= i < |steps| ==> ReadsAt(steps[i], time, skew)
  }

  lemma {:induction false} AtOnceReadings(steps: seq<Move>, time: int, skew: int)
    requires AtOnce(steps, time, skew)
    ensures forall r <- AllReadings(steps, skew) :: r == time
    decreases |steps|
  {
    if steps == [] {
    } else {
      assert ReadsAt(steps[0], time, skew);
      assert forall i :: 0 <= i < |steps[1..]| ==> steps[1..][i] == steps[i + 1];
      AtOnceReadings(steps[1..], time, skew);
    }
  }

  lemma {:induction false} ReadingsOfBoth(first: seq<Move>, rest: seq<Move>, skew: int)
    ensures AllReadings(first + rest, skew) == AllReadings(first, skew) + AllReadings(rest, skew)
    decreases |first|
  {
    if first == [] {
      assert first + rest == rest;
    } else {
      assert (first + rest)[1..] == first[1..] + rest;
      ReadingsOfBoth(first[1..], rest, skew);
    }
  }

  lemma InOrderBoth(first: seq<Move>, rest: seq<Move>, time: int, skew: int)
    requires AtOnce(first, time, skew) && InOrder(rest, time, skew)
    ensures InOrder(first + rest, time, skew)
  {
    AtOnceReadings(first, time, skew);
    ReadingsOfBoth(first, rest, skew);
    var a, b := AllReadings(first, skew), AllReadings(rest, skew);
    forall i | 0 <= i < |a| ensures a[i] == time {
      assert a[i] in a;
    }
  }

  lemma AtOnceInOrder(steps: seq<Move>, time: int, skew: int)
    requires AtOnce(steps, time, skew)
    ensures InOrder(steps, time, skew)
  {
    InOrderBoth(steps, [], time, skew);
    assert steps + [] == steps;
  }

  // ---------- Which requests are safe ----------

  /** Every way a round asking for `q` can go leaves the nodes in agreement, unless it lapses. */
  ghost predicate Safe(s: System, q: Quad) {
    forall steps: seq<Move>, time: int, skew: int ::
      && InOrder(steps, time, skew) && s.client.now <= time && s.server.now <= time + skew
      && Possible(s, steps) && OneRound(steps, q) ==>
        (Quiescent(After(s, steps)) && !After(s, steps).lapsed ==> Agree(After(s, steps)))
  }

  /** Nothing can take the client anywhere else than where it is. */
  predicate Settled(s: System) {
    s.client.link.prev == s.agreed || Successes(s.client.link) >= SUCCESSFUL_PACKETS_BEFORE_LINK_IS_TRUSTED
  }

  // ---------- Requests for another link are safe ----------

  /** What lasts until the first request. */
  predicate SameStart(s: System, s': System) {
    && KeepsSettings(s.client, s'.client) && KeepsSettings(s.server, s'.server) && s'.agreed == s.agreed
    && Successes(s'.client.link) >= Successes(s.client.link)
  }

  lemma StepKeepsInitial(s: System, step: Move)
    requires Initial(s) && Enabled(s, step) && !step.ClientRequests?
    ensures Initial(Next(s, step)) && SameStart(s, Next(s, step))
  {
    hide Next;
    MoveEffect(s, step);
  }

  lemma {:induction false} NoRequestsOtherLink(s: System, steps: seq<Move>)
    requires Possible(s, steps) && NoRequests(steps)
    ensures AlwaysOtherLink(s, steps)
    decreases |steps|
  {
    hide Next;
    hide Enabled;
    if steps == [] {
    } else {
      NoRequestsOtherLink(Next(s, steps[0]), steps[1..]);
    }
  }

  lemma {:induction false} OneRoundOtherLink(s: System, steps: seq<Move>, q: Quad)
    requires Initial(s) && AsksForOtherLink(s, ClientRequests(q))
    requires Possible(s, steps) && OneRound(steps, q)
    ensures AlwaysOtherLink(s, steps)
    decreases |steps|
  {
    hide Next;
    hide Enabled;
    hide Effective;
    hide Restorable;
    hide SameLink;
    if steps == [] {
    } else if steps[0].ClientRequests? {
      NoRequestsOtherLink(Next(s, steps[0]), steps[1..]);
    } else {
      StepKeepsInitial(s, steps[0]);
      OneRoundOtherLink(Next(s, steps[0]), steps[1..], q);
    }
  }

  // ---------- Requests that change nothing are safe when the client is settled ----------

  /** Nothing but the agreed settings is in use or in the making anywhere. */
  predicate AllAgreed(s: System, q: Quad) {
    && NodesSound(s)
    && s.client.link.cur == s.server.link.cur == s.agreed
    && Effective(s.agreed, q) == s.agreed && BothRestorable(s, q)
    && (s.serving.Probing? ==> s.server.link.prev == s.agreed)
    && (s.asking.Waiting? ==> s.asking.q == q)
    && (s.client.link.prev == s.agreed || (!s.client.linkTimer.started && Settled(s)))
  }

  lemma StepKeepsAllAgreed(s: System, step: Move, q: Quad)
    requires AllAgreed(s, q) && Enabled(s, step) && (step.ClientRequests? ==> step.q == q)
    ensures AllAgreed(Next(s, step), q)
  {
    hide Next;
    hide Effective;
    hide Fallback;
    MoveEffect(s, step);
    RestorableFallback(s.client.link.cur, s.client.link.prev, q);
    RestorableFallback(s.server.link.cur, s.server.link.prev, q);
  }

  lemma {:induction false} RoundKeepsAllAgreed(s: System, steps: seq<Move>, q: Quad)
    requires AllAgreed(s, q) && Possible(s, steps)
    requires forall i :: 0 <= i < |steps| && steps[i].ClientRequests? ==> steps[i].q == q
    ensures AllAgreed(After(s, steps), q)
    decreases |steps|
  {
    hide Next;
    hide Enabled;
    hide AllAgreed;
    if steps == [] {
    } else {
      StepKeepsAllAgreed(s, steps[0], q);
      RoundKeepsAllAgreed(Next(s, steps[0]), steps[1..], q);
    }
  }

  lemma {:induction false} OneRoundAsksOnly(steps: seq<Move>, q: Quad)
    requires OneRound(steps, q)
    ensures forall i :: 0 <= i < |steps| && steps[i].ClientRequests? ==> steps[i].q == q
    decreases |steps|
  {
    if steps == [] {
    } else {
      assert forall i :: 0 < i < |steps| ==> steps[i] == steps[1..][i - 1];
      if !steps[0].ClientRequests? {
        OneRoundAsksOnly(steps[1..], q);
      }
    }
  }

  // ---------- Putting runs together ----------

  lemma {:induction false} AfterBoth(s: System, first: seq<Move>, rest: seq<Move>)
    requires Possible(s, first) && Possible(After(s, first), rest)
    ensures Possible(s, first + rest) && After(s, first + rest) == After(After(s, first), rest)
    decreases |first|
  {
    hide Next;
    hide Enabled;
    if first == [] {
      assert first + rest == rest;
    } else {
      AfterBoth(Next(s, first[0]), first[1..], rest);
      assert (first + rest)[1..] == first[1..] + rest;
    }
  }

  lemma {:induction false} NoRequestsOneRound(steps: seq<Move>, q: Quad)
    requires NoRequests(steps)
    ensures OneRound(steps, q)
    decreases |steps|
  {
    if steps == [] {
    } else {
      NoRequestsOneRound(steps[1..], q);
    }
  }

  lemma {:induction false} OneRoundBoth(first: seq<Move>, rest: seq<Move>, q: Quad)
    requires OneRound(first, q) && NoRequests(rest)
    ensures OneRound(first + rest, q)
    decreases |first|
  {
    if first == [] {
      assert first + rest == rest;
      NoRequestsOneRound(rest, q);
    } else {
      assert (first + rest)[1..] == first[1..] + rest;
      if !first[0].ClientRequests? {
        OneRoundBoth(first[1..], rest, q);
      }
    }
  }

  lemma AfterOne(s: System, a: Move)
    requires Enabled(s, a)
    ensures Possible(s, [a]) && After(s, [a]) == Next(s, a)
  {
    hide Next;
    hide Enabled;
    assert Possible(Next(s, a), []);
    assert [a][1..] == [];
  }

  lemma AfterTwo(s: System, a: Move, b: Move)
    requires Enabled(s, a) && Enabled(Next(s, a), b)
    ensures Possible(s, [a, b]) && After(s, [a, b]) == Next(Next(s, a), b)
  {
    hide Next;
    hide Enabled;
    AfterOne(s, a);
    AfterOne(Next(s, a), b);
    AfterBoth(s, [a], [b]);
    assert [a] + [b] == [a, b];
  }

  /** A round so far, all of it made at `time`: no time has passed since both clocks were last read. */
  predicate RoundSoFar(s: System, steps: seq<Move>, q: Quad) {
    Possible(s, steps) && OneRound(steps, q) && AtOnce(steps, s.client.now, Skew(s))
  }

  lemma Continue(s: System, first: seq<Move>, rest: seq<Move>, q: Quad)
    requires RoundSoFar(s, first, q) && Possible(After(s, first), rest) && NoRequests(rest)
    requires InOrder(rest, s.client.now, Skew(s))
    ensures Possible(s, first + rest) && After(s, first + rest) == After(After(s, first), rest)
    ensures OneRound(first + rest, q) && Timely(s, first + rest)
    ensures AtOnce(rest, s.client.now, Skew(s)) ==> RoundSoFar(s, first + rest, q)
  {
    hide Next;
    hide Enabled;
    AfterBoth(s, first, rest);
    OneRoundBoth(first, rest, q);
    InOrderBoth(first, rest, s.client.now, Skew(s));
  }

  // ---------- The moves of a round that is made at once ----------

  /** The clocks of the two nodes as they were last read. */
  function ClientNow(s: System): Tick { Tick(s.client.now, false) }

  function ServerNow(s: System): Tick { Tick(s.server.now, false) }

  /** The request arrives; its acknowledgement is lost or not. */
  function Asking(s: System, q: Quad, ok: bool): seq<Move> {
    [ClientRequests(q), DeliverRequest, RequestReturns(ok, ClientNow(s))]
  }

  lemma AskingEffect(s: System, q: Quad, ok: bool) returns (e: System)
    requires Initial(s)
    ensures RoundSoFar(s, Asking(s, q, ok), q) && After(s, Asking(s, q, ok)) == e
    ensures NodesSound(e) && e.asking == Idle && e.serving == Probing(false)
    ensures if ok then Switches(s.client, e.client, q) else KeepsSettings(s.client, e.client)
    ensures e.client.linkTimer
         == if ok then TimerState(LINK_CHANGE_TIMEOUT_MILLIS, Wrap32(s.client.now), false, true, false)
            else s.client.linkTimer
    ensures Successes(e.client.link) == if ok && AnyAccepted(q) then 0 else Successes(s.client.link)
    ensures Switches(s.server, e.server, q)
    ensures e.agreed == s.agreed && !e.acked && !e.rolledBack && !e.lapsed
  {
    hide Next;
    hide Effective;
    hide Fallback;
    hide AnyAccepted;
    var ask, returned := ClientRequests(q), RequestReturns(ok, ClientNow(s));
    MoveEffect(s, ask);
    var s1 := Next(s, ask);
    MoveEffect(s1, DeliverRequest);
    var s2 := Next(s1, DeliverRequest);
    MoveEffect(s2, returned);
    e := Next(s2, returned);
    AfterTwo(s1, DeliverRequest, returned);
    AfterOne(s, ask);
    AfterBoth(s, [ask], [DeliverRequest, returned]);
    assert [ask] + [DeliverRequest, returned] == Asking(s, q, ok);
  }

  /** The send of the response returns, the response having arrived or not. */
  lemma ResponseReturned(s: System, ok: bool, v: Tick) returns (e: System)
    requires NodesSound(s) && s.serving.Probing? && (ok ==> s.serving.delivered) && !s.rolledBack
    ensures Possible(s, [ResponseReturns(ok, v)]) && After(s, [ResponseReturns(ok, v)]) == e
    ensures NodesSound(e) && e.client == s.client && e.asking == s.asking && e.serving == Polling
    ensures if ok then KeepsSettings(s.server, e.server) else FallsBack(s.server, e.server)
    ensures e.acked == (s.acked || ok) && !e.rolledBack && e.lapsed == s.lapsed
  {
    hide Next;
    MoveEffect(s, ResponseReturns(ok, v));
    AfterOne(s, ResponseReturns(ok, v));
    e := Next(s, ResponseReturns(ok, v));
  }

  /** The response arrives; its acknowledgement is lost or not. */
  function Answering(c: Tick, v: Tick, ok: bool): seq<Move> {
    [DeliverResponse(c, c), ResponseReturns(ok, v)]
  }

  lemma AnsweringEffect(s: System, c: Tick, v: Tick, ok: bool) returns (e: System)
    requires NodesSound(s) && s.asking == Idle && s.serving == Probing(false) && Connected(s)
    requires !s.acked && !s.rolledBack && !s.lapsed
    ensures Possible(s, Answering(c, v, ok)) && After(s, Answering(c, v, ok)) == e
    ensures NodesSound(e) && e.asking == Idle && e.serving == Polling
    ensures KeepsSettings(s.client, e.client)
    ensures if ok then KeepsSettings(s.server, e.server) else FallsBack(s.server, e.server)
    ensures Successes(e.client.link) == Successes(s.client.link) + 1
    ensures e.client.linkTimer.started <==>
              Successes(s.client.link) < SUCCESSFUL_PACKETS_BEFORE_LINK_IS_TRUSTED
    ensures e.client.linkTimer.started ==>
              e.client.linkTimer == TimerState(TRUST_TIMEOUT_MILLIS, Wrap32(c.now), false, true, false)
    ensures e.acked == ok && !e.rolledBack && !e.lapsed
  {
    hide Next;
    MoveEffect(s, DeliverResponse(c, c));
    var arrived := Next(s, DeliverResponse(c, c));
    MoveEffect(arrived, ResponseReturns(ok, v));
    AfterTwo(s, DeliverResponse(c, c), ResponseReturns(ok, v));
    e := Next(arrived, ResponseReturns(ok, v));
  }

  const MSG_DATA_RSP: Byte := 2

  /** The server sends the client a packet, and it arrives. */
  function PacketCrosses(s: System, c: Tick): seq<Move> {
    [ServerSends(s.client.address, [MSG_DATA_RSP], true),
     ClientReceives(Packet(s.server.address, [MSG_DATA_RSP]), c, false, c)]
  }

  lemma PacketCounts(s: System, c: Tick, skew: int) returns (e: System)
    requires NodesSound(s) && s.asking.Idle? && s.serving.Polling? && Connected(s)
    ensures Possible(s, PacketCrosses(s, c)) && After(s, PacketCrosses(s, c)) == e
    ensures NoRequests(PacketCrosses(s, c)) && AtOnce(PacketCrosses(s, c), c.now, skew)
    ensures NodesSound(e) && e == s.(client := e.client, server := e.server)
    ensures KeepsSettings(s.client, e.client) && KeepsSettings(s.server, e.server)
    ensures Successes(e.client.link) > Successes(s.client.link)
    ensures Successes(e.client.link) > SUCCESSFUL_PACKETS_BEFORE_LINK_IS_TRUSTED ==> !e.client.linkTimer.started
  {
    hide Next;
    var steps := PacketCrosses(s, c);
    MoveEffect(s, steps[0]);
    MoveEffect(Next(s, steps[0]), steps[1]);
    AfterTwo(s, steps[0], steps[1]);
    e := Next(Next(s, steps[0]), steps[1]);
  }

  function ThreePackets(s: System, c: Tick): seq<Move> {
    PacketCrosses(s, c) + PacketCrosses(s, c) + PacketCrosses(s, c)
  }

  /** Three more packets make the client trust whatever link it is on. */
  lemma PacketsBringTrust(s: System, c: Tick, skew: int) returns (e: System)
    requires NodesSound(s) && s.asking.Idle? && s.serving.Polling? && Connected(s) && Successes(s.client.link) >= 1
    ensures Possible(s, ThreePackets(s, c)) && After(s, ThreePackets(s, c)) == e
    ensures NoRequests(ThreePackets(s, c)) && AtOnce(ThreePackets(s, c), c.now, skew)
    ensures e == s.(client := e.client, server := e.server) && !e.client.linkTimer.started
    ensures KeepsSettings(s.client, e.client) && KeepsSettings(s.server, e.server)
  {
    hide Next;
    hide Enabled;
    hide ReadsAt;
    var one := PacketCrosses(s, c);
    var s1 := PacketCounts(s, c, skew);
    var s2 := PacketCounts(s1, c, skew);
    e := PacketCounts(s2, c, skew);
    AfterBoth(s, one, one);
    AfterBoth(s, one + one, one);
  }

  /** The client polls when the longest timeout that its timer can have been started with is over. */
  function LatePoll(s: System): Move {
    ClientPolls(Tick(s.client.now + TRUST_TIMEOUT_MILLIS + 1, false))
  }

  /** If the timer runs since the clocks were read at `start`, that takes the client to its previous settings. */
  lemma LatePollRollsBack(start: System, s: System) returns (e: System)
    requires NodesSound(s) && s.asking == Idle && s.client.linkTimer.started
    requires s.client.linkTimer.reference == Wrap32(start.client.now)
    ensures Possible(s, [LatePoll(start)]) && After(s, [LatePoll(start)]) == e
    ensures NodesSound(e) && FallsBack(s.client, e.client) && !e.client.linkTimer.started
    ensures e == s.(client := e.client, rolledBack := true, lapsed := s.lapsed || s.acked)
    ensures InOrder([LatePoll(start)], start.client.now, Skew(start))
  {
    hide Next;
    FiresExactly(s.client.linkTimer, start.client.now, LatePoll(start).t.now);
    MoveEffect(s, LatePoll(start));
    AfterOne(s, LatePoll(start));
    e := Next(s, LatePoll(start));
    assert AllReadings([LatePoll(start)], Skew(start)) == [LatePoll(start).t.now];
  }

  /** A request and its response, the response reaching the client. */
  function Exchange(s: System, q: Quad, requestOk: bool, responseOk: bool): seq<Move> {
    Asking(s, q, requestOk) + Answering(ClientNow(s), ServerNow(s), responseOk)
  }

  lemma ExchangeEffect(s: System, q: Quad, requestOk: bool, responseOk: bool) returns (e: System)
    requires Initial(s) && BothRestorable(s, q) && (requestOk || SameLink(s.agreed, Effective(s.agreed, q)))
    ensures RoundSoFar(s, Exchange(s, q, requestOk, responseOk), q)
    ensures After(s, Exchange(s, q, requestOk, responseOk)) == e
    ensures NodesSound(e) && e.asking == Idle && e.serving == Polling
    ensures e.client.address == s.client.address && e.server.address == s.server.address
    ensures e.client.link.cur == (if requestOk then Effective(s.agreed, q) else s.agreed)
    ensures e.client.link.prev == (if requestOk then s.agreed else s.client.link.prev)
    ensures e.server.link.cur == (if responseOk then Effective(s.agreed, q) else s.agreed)
    ensures Successes(e.client.link) == 1 + if requestOk && AnyAccepted(q) then 0 else Successes(s.client.link)
    ensures e.client.linkTimer.started <==> Successes(e.client.link) <= SUCCESSFUL_PACKETS_BEFORE_LINK_IS_TRUSTED
    ensures e.client.linkTimer.started ==> e.client.linkTimer.reference == Wrap32(s.client.now)
    ensures e.acked == responseOk && !e.rolledBack && !e.lapsed
  {
    hide Next;
    hide Enabled;
    hide Effective;
    hide Fallback;
    hide Restorable;
    hide AnyAccepted;
    RestorableFallback(s.client.link.cur, s.client.link.prev, q);
    RestorableFallback(s.server.link.cur, s.server.link.prev, q);
    var asked := AskingEffect(s, q, requestOk);
    var answering := Answering(ClientNow(s), ServerNow(s), responseOk);
    e := AnsweringEffect(asked, ClientNow(s), ServerNow(s), responseOk);
    AtOnceInOrder(answering, s.client.now, Skew(s));
    Continue(s, Asking(s, q, requestOk), answering, q);
  }

  // ---------- What can come of a request ----------

  /** After an exchange, three packets settle the client where it is. */
  lemma ExchangeThenTrust(s: System, q: Quad, requestOk: bool, responseOk: bool)
      returns (steps: seq<Move>, e: System)
    requires Initial(s) && BothRestorable(s, q)
    requires requestOk || SameLink(s.agreed, Effective(s.agreed, q))
    requires requestOk == responseOk || SameLink(s.agreed, Effective(s.agreed, q))
    ensures Possible(s, steps) && OneRound(steps, q) && Timely(s, steps) && After(s, steps) == e
    ensures Quiescent(e) && !e.lapsed && e.acked == responseOk && !e.rolledBack
    ensures e.client.link.cur == (if requestOk then Effective(s.agreed, q) else s.agreed)
    ensures e.server.link.cur == (if responseOk then Effective(s.agreed, q) else s.agreed)
  {
    hide Next;
    hide Enabled;
    hide Effective;
    hide ThreePackets;
    hide Exchange;
    hide AtOnce;
    var met := ExchangeEffect(s, q, requestOk, responseOk);
    assert CountersMatch(s.client.link);
    var packets := ThreePackets(met, ClientNow(s));
    e := PacketsBringTrust(met, ClientNow(s), Skew(s));
    AtOnceInOrder(packets, s.client.now, Skew(s));
    Continue(s, Exchange(s, q, requestOk, responseOk), packets, q);
    steps := Exchange(s, q, requestOk, responseOk) + packets;
  }

  /** The change works: when nothing is lost both nodes move, and four packets on the new link settle it. */
  lemma ChangeSucceeds(s: System, q: Quad) returns (steps: seq<Move>)
    requires Initial(s) && BothRestorable(s, q)
    ensures Possible(s, steps) && OneRound(steps, q) && Timely(s, steps)
    ensures var e := After(s, steps);
      Quiescent(e) && !e.lapsed && e.client.link.cur == e.server.link.cur == Effective(s.agreed, q)
  {
    var e;
    steps, e := ExchangeThenTrust(s, q, true, true);
  }

  /** A change of power alone can end with the server moved, the client not, and nothing lapsed. */
  lemma PowerAloneMovesServer(s: System, q: Quad) returns (steps: seq<Move>)
    requires Initial(s) && BothRestorable(s, q) && SameLink(s.agreed, Effective(s.agreed, q))
    ensures Possible(s, steps) && OneRound(steps, q) && Timely(s, steps)
    ensures var e := After(s, steps);
      && Quiescent(e) && e.acked && !e.lapsed
      && e.client.link.cur == s.agreed && e.server.link.cur == Effective(s.agreed, q)
  {
    var e;
    steps, e := ExchangeThenTrust(s, q, false, true);
  }

  /**
   * It can also end with the client moved and the server not: the response is not acknowledged, so the server falls
   * back, but the two still hear each other, and three packets later the client trusts the link.
   */
  lemma PowerAloneMovesClient(s: System, q: Quad) returns (steps: seq<Move>)
    requires Initial(s) && BothRestorable(s, q) && SameLink(s.agreed, Effective(s.agreed, q))
    ensures Possible(s, steps) && OneRound(steps, q) && Timely(s, steps)
    ensures var e := After(s, steps);
      && Quiescent(e) && !e.acked && !e.lapsed
      && e.client.link.cur == Effective(s.agreed, q) && e.server.link.cur == s.agreed
  {
    var e;
    steps, e := ExchangeThenTrust(s, q, true, false);
  }

  /** A change can lapse: the response is acknowledged, no packet follows, and the client goes back alone. */
  lemma ChangeCanLapse(s: System, q: Quad) returns (steps: seq<Move>)
    requires Initial(s) && AsksForOtherLink(s, ClientRequests(q))
    ensures Possible(s, steps) && OneRound(steps, q) && Timely(s, steps)
    ensures var e := After(s, steps);
      Quiescent(e) && e.lapsed && Split(e)
      && e.client.link.cur == s.agreed && e.server.link.cur == Effective(s.agreed, q)
  {
    hide Next;
    hide Enabled;
    var met := ExchangeEffect(s, q, true, true);
    var gone := LatePollRollsBack(s, met);
    Continue(s, Exchange(s, q, true, true), [LatePoll(s)], q);
    steps := Exchange(s, q, true, true) + [LatePoll(s)];
  }

  /** A request that changes nothing can take a client that is not settled back to older settings. */
  lemma NoChangeCanLeaveHome(s: System, q: Quad) returns (steps: seq<Move>)
    requires Initial(s) && BothRestorable(s, q) && Effective(s.agreed, q) == s.agreed && !Settled(s)
    ensures Possible(s, steps) && OneRound(steps, q) && Timely(s, steps)
    ensures var e := After(s, steps);
      && Quiescent(e) && !e.lapsed
      && e.client.link.cur == s.client.link.prev != s.agreed && e.server.link.cur == s.agreed
  {
    hide Next;
    hide Enabled;
    var met := ExchangeEffect(s, q, false, false);
    var gone := LatePollRollsBack(s, met);
    Continue(s, Exchange(s, q, false, false), [LatePoll(s)], q);
    steps := Exchange(s, q, false, false) + [LatePoll(s)];
  }

  /** With a rejected field it had not settled, a server that is not acknowledged falls back to older settings. */
  lemma ServerFallsElsewhere(s: System, q: Quad) returns (steps: seq<Move>)
    requires Initial(s) && !Restorable(s.server.link.cur, s.server.link.prev, q)
    ensures Possible(s, steps) && OneRound(steps, q) && Timely(s, steps)
    ensures var e := After(s, steps);
      && Quiescent(e) && !e.lapsed
      && e.client.link.cur == s.agreed
      && e.server.link.cur == Fallback(s.server.link.cur, s.server.link.prev, q) != s.agreed
  {
    hide Next;
    hide Enabled;
    hide Effective;
    hide Fallback;
    hide Restorable;
    RestorableFallback(s.server.link.cur, s.server.link.prev, q);
    var asked := AskingEffect(s, q, false);
    var e := ResponseReturned(asked, false, ServerNow(s));
    AtOnceInOrder([ResponseReturns(false, ServerNow(s))], s.client.now, Skew(s));
    Continue(s, Asking(s, q, false), [ResponseReturns(false, ServerNow(s))], q);
    steps := Asking(s, q, false) + [ResponseReturns(false, ServerNow(s))];
  }

  /** With a rejected field it had not settled, a client that gets no response rolls back to older settings. */
  lemma ClientFallsElsewhere(s: System, q: Quad) returns (steps: seq<Move>)
    requires Initial(s) && Restorable(s.server.link.cur, s.server.link.prev, q)
    requires !Restorable(s.client.link.cur, s.client.link.prev, q)
    ensures Possible(s, steps) && OneRound(steps, q) && Timely(s, steps)
    ensures var e := After(s, steps);
      && Quiescent(e) && !e.lapsed
      && e.client.link.cur == Fallback(s.client.link.cur, s.client.link.prev, q) != s.agreed
      && e.server.link.cur == s.agreed
  {
    hide Next;
    hide Enabled;
    hide Effective;
    hide Fallback;
    hide Restorable;
    RestorableFallback(s.client.link.cur, s.client.link.prev, q);
    RestorableFallback(s.server.link.cur, s.server.link.prev, q);
    var asked := AskingEffect(s, q, true);
    var lost := ResponseReturned(asked, false, ServerNow(s));
    var gone := LatePollRollsBack(s, lost);
    var unheard := [ResponseReturns(false, ServerNow(s))];
    AtOnceInOrder(unheard, s.client.now, Skew(s));
    Continue(s, Asking(s, q, true), unheard, q);
    Continue(s, Asking(s, q, true) + unheard, [LatePoll(s)], q);
    steps := Asking(s, q, true) + unheard + [LatePoll(s)];
  }

  // ---------- The exact condition ----------

  lemma UnsafeBy(s: System, q: Quad, steps: seq<Move>)
    requires Possible(s, steps) && OneRound(steps, q) && Timely(s, steps)
    requires Quiescent(After(s, steps)) && !After(s, steps).lapsed && !Agree(After(s, steps))
    ensures !Safe(s, q)
  {
    hide InOrder;
    hide Possible;
    hide OneRound;
    assert InOrder(steps, s.client.now, Skew(s));
  }

  lemma SafeOtherLink(s: System, q: Quad)
    requires Initial(s) && AsksForOtherLink(s, ClientRequests(q))
    ensures Safe(s, q)
  {
    forall steps: seq<Move> | Possible(s, steps) && OneRound(steps, q)
      ensures Quiescent(After(s, steps)) && !After(s, steps).lapsed ==> Agree(After(s, steps))
    {
      OneRoundOtherLink(s, steps, q);
      NodesAgree(s, steps);
    }
  }

  lemma SafeNoChange(s: System, q: Quad)
    requires Initial(s) && BothRestorable(s, q) && Effective(s.agreed, q) == s.agreed && Settled(s)
    ensures Safe(s, q)
  {
    forall steps: seq<Move> | Possible(s, steps) && OneRound(steps, q)
      ensures Agree(After(s, steps))
    {
      OneRoundAsksOnly(steps, q);
      RoundKeepsAllAgreed(s, steps, q);
    }
  }

  /**
   * Exactly the requests that are safe, valid or not: each rejected field is settled on both sides; and the request
   * leads to another link, or changes nothing while nothing can take the client elsewhere.
   */
  lemma SafeExactly(s: System, q: Quad)
    requires Initial(s)
    ensures var e := Effective(s.agreed, q);
      Safe(s, q) <==> BothRestorable(s, q) && (!SameLink(e, s.agreed) || (e == s.agreed && Settled(s)))
  {
    hide Safe;
    hide Possible;
    hide OneRound;
    hide Timely;
    hide Restorable;
    hide Effective;
    if !Restorable(s.server.link.cur, s.server.link.prev, q) {
      var steps := ServerFallsElsewhere(s, q);
      UnsafeBy(s, q, steps);
    } else if !Restorable(s.client.link.cur, s.client.link.prev, q) {
      var steps := ClientFallsElsewhere(s, q);
      UnsafeBy(s, q, steps);
    } else if !SameLink(Effective(s.agreed, q), s.agreed) {
      SafeOtherLink(s, q);
    } else if Effective(s.agreed, q) != s.agreed {
      var steps := PowerAloneMovesServer(s, q);
      UnsafeBy(s, q, steps);
    } else if Settled(s) {
      SafeNoChange(s, q);
    } else {
      var steps := NoChangeCanLeaveHome(s, q);
      UnsafeBy(s, q, steps);
    }
  }
}
