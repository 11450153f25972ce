/** What the two-node link change guarantees, for every pattern of losses, and exactly where it stops. */
module Agreement {
  import opened Platform
  import opened Settings
  import opened Node
  import opened NodeInvariants
  import opened TwoNodes

  /** Two nodes fresh from setup, whatever their radios and buffers held before, with nothing between them yet. */
  function FreshPair(a: Byte, b: Byte, ra: Programmed, rb: Programmed, xa: Buffer, xb: Buffer): System {
    System(Setup(Boot(a, ra, xa)), Setup(Boot(b, rb, xb)), Idle, Polling, DEFAULT_QUAD, false, false, false)
  }

  lemma FreshPairIsInitial(a: Byte, b: Byte, ra: Programmed, rb: Programmed, xa: Buffer, xb: Buffer)
    ensures Initial(FreshPair(a, b, ra, rb, xa, xb))
  {
    SetupIsSound(a, ra, xa);
    SetupIsSound(b, rb, xb);
  }

  lemma InitialInv(s: System)
    requires Initial(s)
    ensures Inv(s)
  {}

  /**
   * After any number of link changes, each to another link, whatever was lost: once nothing is under way both nodes
   * hold the settings of the latest acknowledged response, unless some change lapsed, that is, its response was
   * acknowledged and the client rolled it back all the same. Requests may come while an earlier change is pending.
   */
  lemma NodesAgree(s: System, steps: seq<Move>)
    requires Initial(s) && Possible(s, steps) && AlwaysOtherLink(s, steps)
    ensures var e := After(s, steps);
      Quiescent(e) && !e.lapsed ==> e.client.link.cur == e.server.link.cur == e.agreed
  {
    InitialInv(s);
    RunKeepsInv(s, steps);
  }

  /**
   * A response only ever reaches a client whose rollback timer is running, on the settings the server is probing; and
   * then both sides would fall back to the same settings, the agreed ones.
   */
  lemma ResponseFindsPendingClient(s: System, steps: seq<Move>, h: Tick, t: Tick)
    requires Initial(s) && Possible(s, steps) && AlwaysOtherLink(s, steps)
    requires !After(s, steps).lapsed && Enabled(After(s, steps), DeliverResponse(h, t))
    ensures var e := After(s, steps);
      && e.client.linkTimer.started
      && e.client.link.cur == e.server.link.cur
      && e.client.link.prev == e.server.link.prev == e.agreed
  {
    InitialInv(s);
    RunKeepsInv(s, steps);
  }

  /** While the client's timer runs, it would go back to the agreed settings, or the server has committed. */
  lemma PendingClientCanGoHome(s: System, steps: seq<Move>)
    requires Initial(s) && Possible(s, steps) && AlwaysOtherLink(s, steps)
    ensures var e := After(s, steps);
      !e.lapsed && e.client.linkTimer.started ==>
        (e.client.link.prev == e.agreed && !e.acked) || (e.client.link.cur == e.agreed && e.acked)
  {
    InitialInv(s);
    RunKeepsInv(s, steps);
  }

  // ---------- The agreed settings are ones that were asked for ----------

  /** Where following the request of a move, or not following it, leads from some settings. */
  function Following(from: set<Quad>, step: Move): set<Quad> {
    if step.ClientRequests? then from + (set d | d in from :: Effective(d, step.q)) else from
  }

  /** Where some of the requests made in `steps`, followed in order, lead. */
  function FollowingSome(from: set<Quad>, steps: seq<Move>): set<Quad>
    decreases |steps|
  {
    if steps == [] then from else FollowingSome(Following(from, steps[0]), steps[1..])
  }

  /** The server is on the agreed settings, or probing and able to get back to them, even after a lapse. */
  predicate ServerFollows(s: System) {
    && (s.serving.Polling? ==> s.server.link.cur == s.agreed)
    && (s.serving.Probing? ==> s.server.link.prev == s.agreed)
    && (s.asking.Waiting? && !s.asking.delivered ==>
          Restorable(s.server.link.cur, s.server.link.prev, s.asking.q))
  }

  /** The agreed settings, and those that may come to be agreed from here on, are in `from`. */
  predicate AgreedIn(s: System, from: set<Quad>) {
    && s.agreed in from
    && (s.serving.Probing? ==> s.server.link.cur in from)
    && (s.asking.Waiting? && !s.asking.delivered ==>
          && Effective(s.agreed, s.asking.q) in from
          && (s.serving.Probing? ==> Effective(s.server.link.cur, s.asking.q) in from))
  }

  lemma AgreedFromStep(s: System, step: Move, from: set<Quad>)
    requires NodesSound(s) && ServerFollows(s) && AgreedIn(s, from)
    requires Enabled(s, step) && AsksForOtherLink(s, step)
    ensures var s' := Next(s, step);
      NodesSound(s') && ServerFollows(s') && AgreedIn(s', Following(from, step))
  {
    hide Next;
    hide Effective;
    hide Fallback;
    hide Restorable;
    MoveEffect(s, step);
    if s.asking.Waiting? {
      RestorableFallback(s.server.link.cur, s.server.link.prev, s.asking.q);
    }
  }

  lemma {:induction false} AgreedFromRun(s: System, steps: seq<Move>, from: set<Quad>)
    requires NodesSound(s) && ServerFollows(s) && AgreedIn(s, from)
    requires Possible(s, steps) && AlwaysOtherLink(s, steps)
    ensures After(s, steps).agreed in FollowingSome(from, steps)
    decreases |steps|
  {
    hide Next;
    hide Enabled;
    hide AsksForOtherLink;
    if steps == [] {
    } else {
      AgreedFromStep(s, steps[0], from);
      AgreedFromRun(Next(s, steps[0]), steps[1..], Following(from, steps[0]));
    }
  }

  /** The agreed settings come from the first ones by some of the requests, in order, rejected fields left alone. */
  lemma AgreedWasRequested(s: System, steps: seq<Move>)
    requires Initial(s) && Possible(s, steps) && AlwaysOtherLink(s, steps)
    ensures After(s, steps).agreed in FollowingSome({s.agreed}, steps)
  {
    AgreedFromRun(s, steps, {s.agreed});
  }

  predicate RequestedIn(steps: seq<Move>, q: Quad) {
    exists i :: 0 <= i < |steps| && steps[i] == ClientRequests(q)
  }

  predicate AllValid(steps: seq<Move>) {
    forall i :: 0 <= i < |steps| && steps[i].ClientRequests? ==> ValidQuad(steps[i].q)
  }

  lemma {:induction false} ValidRequestsAreWhole(from: set<Quad>, steps: seq<Move>, e: Quad)
    requires AllValid(steps) && e in FollowingSome(from, steps)
    ensures e in from || RequestedIn(steps, e)
    decreases |steps|
  {
    if steps == [] {
    } else {
      var rest := steps[1..];
      ValidRequestsAreWhole(Following(from, steps[0]), rest, e);
      if RequestedIn(rest, e) {
        var i :| 0 <= i < |rest| && rest[i] == ClientRequests(e);
        assert steps[i + 1] == ClientRequests(e);
      } else if e !in from {
        assert steps[0] == ClientRequests(e);
      }
    }
  }

  /** So with valid requests a single round from `a` to `b` ends with both nodes on `a` or both on `b`. */
  lemma ValidAgreedWasRequested(s: System, steps: seq<Move>)
    requires Initial(s) && Possible(s, steps) && AlwaysOtherLink(s, steps) && AllValid(steps)
    ensures var e := After(s, steps); e.agreed == s.agreed || RequestedIn(steps, e.agreed)
  {
    AgreedWasRequested(s, steps);
    ValidRequestsAreWhole({s.agreed}, steps, After(s, steps).agreed);
  }

  // ---------- One change at a time: agreement fails exactly by lapsing, and for good ----------

  predicate OneAtATime(s: System, step: Move) {
    AsksForOtherLink(s, step) && (step.ClientRequests? ==> !s.client.linkTimer.started)
  }

  predicate AlwaysOneAtATime(s: System, steps: seq<Move>)
    requires Possible(s, steps)
    decreases |steps|
  {
    steps == [] || (OneAtATime(s, steps[0]) && AlwaysOneAtATime(Next(s, steps[0]), steps[1..]))
  }

  /** The nodes are on different links, and nothing under way could bring either of them back. */
  predicate Split(s: System) {
    && NodesSound(s) && !Connected(s)
    && !s.client.linkTimer.started && s.serving.Polling?
    && (s.asking.Waiting? ==> !s.asking.delivered)
  }

  predicate SequentialInv(s: System) {
    && Inv(s)
    && (s.lapsed ==> Split(s))
    && (!s.lapsed && s.client.linkTimer.started ==> s.asking.Idle? && (AtHome(s) ==> s.serving.Polling?))
  }

  /** Apart, the nodes stay apart, on the settings they have. */
  lemma StepKeepsSplit(s: System, step: Move)
    requires Split(s) && Enabled(s, step)
    ensures var s' := Next(s, step);
      && Split(s') && s'.lapsed == s.lapsed
      && s'.client.link.cur == s.client.link.cur && s'.server.link.cur == s.server.link.cur
  {
    hide Next;
    MoveEffect(s, step);
  }

  lemma {:induction false} SplitIsForGood(s: System, steps: seq<Move>)
    requires Split(s) && Possible(s, steps)
    ensures var e := After(s, steps);
      Split(e) && e.client.link.cur == s.client.link.cur && e.server.link.cur == s.server.link.cur
    decreases |steps|
  {
    hide Next;
    hide Enabled;
    if steps == [] {
    } else {
      StepKeepsSplit(s, steps[0]);
      SplitIsForGood(Next(s, steps[0]), steps[1..]);
    }
  }

  lemma UnlapsedStepSequential(s: System, step: Move)
    requires SequentialInv(s) && !s.lapsed && Enabled(s, step) && OneAtATime(s, step) && Inv(Next(s, step))
    ensures SequentialInv(Next(s, step))
  {
    hide Next;
    MoveEffect(s, step);
  }

  lemma StepKeepsSequential(s: System, step: Move)
    requires SequentialInv(s) && Enabled(s, step) && OneAtATime(s, step)
    ensures SequentialInv(Next(s, step))
  {
    StepKeepsInv(s, step);
    if s.lapsed {
      StepKeepsSplit(s, step);
    } else {
      UnlapsedStepSequential(s, step);
    }
  }

  lemma {:induction false} RunKeepsSequential(s: System, steps: seq<Move>)
    requires SequentialInv(s) && Possible(s, steps) && AlwaysOneAtATime(s, steps)
    ensures SequentialInv(After(s, steps))
    decreases |steps|
  {
    hide Next;
    hide Enabled;
    hide SequentialInv;
    hide OneAtATime;
    if steps == [] {
    } else {
      StepKeepsSequential(s, steps[0]);
      RunKeepsSequential(Next(s, steps[0]), steps[1..]);
    }
  }

  /** With requests made only while no change is pending, the nodes end up apart exactly when a change has lapsed. */
  lemma ApartExactlyWhenLapsed(s: System, steps: seq<Move>)
    requires Initial(s) && Possible(s, steps) && AlwaysOneAtATime(s, steps)
    ensures var e := After(s, steps);
      && (Quiescent(e) ==> (Agree(e) <==> !e.lapsed))
      && (e.lapsed ==> Split(e))
  {
    InitialInv(s);
    RunKeepsSequential(s, steps);
  }
}
