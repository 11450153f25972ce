/**
 * The protocol class itself: fields updated in place, two timers sharing one clock, three message buffers. Each method
 * takes what the radio, the clock and the serial port answer as arguments, and is proved to do what the function of
 * the same name in `Node` says.
 */
module LoraPoint2PointProtocol {
  import opened Platform
  import opened Settings
  import opened Timer
  import EF = ErrorFraction
  import N = Node
  import opened Serial

  class LoraPoint2Point {
    const thisAddress: Byte
    const clock: Clock
    const linkChangeTimeoutTimer: SimpleTimer
    const heartbeatTimer: SimpleTimer
    const txBuf: array<Byte>
    const rxBuf: array<Byte>
    const cmdBuf: array<Byte>

    var currentSpreadingFactor: Byte
    var currentSignalBandwidth: Byte
    var currentFrequencyChannel: Byte
    var currentTxPower: SByte
    var previousSpreadingFactor: Byte
    var previousSignalBandwidth: Byte
    var previousFrequencyChannel: Byte
    var previousTxPower: SByte
    var radio: Programmed
    var packetErrorFraction: real
    var packetCount: nat
    var packetErrorCount: nat
    var serialCommandMode: bool
    var txLen: nat
    var cmdLen: nat
    ghost var trace: N.Trace
    ghost var now: nat

    ghost predicate Valid()
      reads this, clock
    {
      && linkChangeTimeoutTimer != heartbeatTimer
      && linkChangeTimeoutTimer.clock == clock && heartbeatTimer.clock == clock
      && txBuf != rxBuf && rxBuf != cmdBuf && cmdBuf != txBuf
      && txBuf.Length == rxBuf.Length == cmdBuf.Length == MAX_MESSAGE_LEN
      && txLen <= MAX_MESSAGE_LEN && cmdLen <= MAX_MESSAGE_LEN
      && clock.currentMillis == Wrap32(now)
    }

    ghost function LinkState(): N.Link
      reads this
    {
      N.Link(
        Quad(currentSpreadingFactor, currentSignalBandwidth, currentFrequencyChannel, currentTxPower),
        Quad(previousSpreadingFactor, previousSignalBandwidth, previousFrequencyChannel, previousTxPower),
        radio, packetCount, packetErrorCount, packetErrorFraction, trace)
    }

    /** The node this object is. */
    ghost function Model(): N.Node
      requires Valid()
      reads this, clock, linkChangeTimeoutTimer, heartbeatTimer, txBuf, rxBuf, cmdBuf
    {
      N.Node(thisAddress, LinkState(), now, linkChangeTimeoutTimer.State(), heartbeatTimer.State(),
        serialCommandMode, cmdBuf[..cmdLen], txBuf[..txLen], rxBuf[..])
    }

    constructor (thisAddress: Byte, radio: Programmed)
      ensures Valid()
      ensures fresh(clock) && fresh(linkChangeTimeoutTimer) && fresh(heartbeatTimer)
      ensures fresh(txBuf) && fresh(rxBuf) && fresh(cmdBuf)
      ensures Model() == N.Boot(thisAddress, radio, seq(MAX_MESSAGE_LEN, i => 0))
    {
      this.thisAddress := thisAddress;
      this.radio := radio;
      var c := new Clock();
      clock := c;
      linkChangeTimeoutTimer := new SimpleTimer(N.LINK_CHANGE_TIMEOUT_MILLIS, c, false);
      heartbeatTimer := new SimpleTimer(N.HEARTBEAT_TIMEOUT_MILLIS, c, true);
      txBuf := new Byte[MAX_MESSAGE_LEN](i => 0);
      rxBuf := new Byte[MAX_MESSAGE_LEN](i => 0);
      cmdBuf := new Byte[MAX_MESSAGE_LEN](i => 0);
      currentSpreadingFactor, previousSpreadingFactor := DEFAULT_QUAD.sf, DEFAULT_QUAD.sf;
      currentSignalBandwidth, previousSignalBandwidth := DEFAULT_QUAD.bw, DEFAULT_QUAD.bw;
      currentFrequencyChannel, previousFrequencyChannel := DEFAULT_QUAD.ch, DEFAULT_QUAD.ch;
      currentTxPower, previousTxPower := DEFAULT_QUAD.power, DEFAULT_QUAD.power;
      packetErrorFraction, packetCount, packetErrorCount := 0.0, 0, 0;
      serialCommandMode, txLen, cmdLen := false, 0, 0;
      trace, now := N.Empty, 0;
      new;
      assert rxBuf[..] == seq(MAX_MESSAGE_LEN, i => 0);
    }

    // ---------- Packet outcomes ----------

    method UpdatePacketErrorFraction(packetSuccess: bool)
      requires Valid()
      modifies this
      ensures Valid() && Model() == old(Model()).(link := N.UpdatePacketErrorFraction(old(LinkState()), packetSuccess))
    {
      packetCount := packetCount + 1;
      packetErrorCount := packetErrorCount + if packetSuccess then 0 else 1;
      packetErrorFraction := packetErrorFraction
        + (EF.ErrorValue(packetSuccess) - packetErrorFraction)
          / (EF.Min(packetCount, EF.MOVING_AVERAGE_PERIOD) as real);
      trace := N.Snoc(trace, N.Counted(packetSuccess));
    }

    method ResetPacketErrorFraction()
      requires Valid()
      modifies this
      ensures Valid() && Model() == old(Model()).(link := N.ResetPacketErrorFraction(old(LinkState())))
    {
      packetErrorFraction := 0.0;
      packetCount := 0;
      packetErrorCount := 0;
    }

    // ---------- Settings ----------

    /** The user's callback, told of the current settings. */
    ghost method LinkChangeInd()
      requires Valid()
      modifies this`trace
      ensures trace == N.Snoc(old(trace), N.Indicated(LinkState().cur))
    {
      trace := N.Snoc(trace, N.Indicated(LinkState().cur));
    }

    method SetupRadio(answers: bool) returns (ok: bool)
      requires Valid()
      modifies this
      ensures Valid() && ok == answers
      ensures Model() == if answers then N.Setup(old(Model())) else old(Model())
    {
      if !answers {
        return false;
      }
      SetSpreadingFactor(DEFAULT_QUAD.sf);
      SetBandwidth(DEFAULT_QUAD.bw);
      SetTxPower(DEFAULT_QUAD.power);
      SetFrequencyChannel(DEFAULT_QUAD.ch);
      return true;
    }

    method SetSpreadingFactor(spreadingFactor: Byte)
      requires Valid()
      modifies this
      ensures Valid() && Model() == old(Model()).(link := N.SetSpreadingFactor(old(LinkState()), spreadingFactor))
    {
      if spreadingFactor >= |SPREADING_FACTOR_TABLE| {
        return;
      }
      radio := radio.(spreadingFactor := SPREADING_FACTOR_TABLE[spreadingFactor]);
      ResetPacketErrorFraction();
      previousSpreadingFactor := currentSpreadingFactor;
      currentSpreadingFactor := spreadingFactor;
      LinkChangeInd();
    }

    method SetBandwidth(bandwidth: Byte)
      requires Valid()
      modifies this
      ensures Valid() && Model() == old(Model()).(link := N.SetBandwidth(old(LinkState()), bandwidth))
    {
      if bandwidth >= |SIGNAL_BANDWIDTH_TABLE| {
        return;
      }
      radio := radio.(bandwidthHz := SIGNAL_BANDWIDTH_TABLE[bandwidth]);
      ResetPacketErrorFraction();
      previousSignalBandwidth := currentSignalBandwidth;
      currentSignalBandwidth := bandwidth;
      LinkChangeInd();
    }

    method SetFrequencyChannel(frequencyChannel: Byte)
      requires Valid()
      modifies this
      ensures Valid() && Model() == old(Model()).(link := N.SetFrequencyChannel(old(LinkState()), frequencyChannel))
    {
      if frequencyChannel >= |FREQUENCY_CHANNEL_TABLE| {
        return;
      }
      radio := radio.(frequencyMHz := FrequencyMHz(frequencyChannel));
      ResetPacketErrorFraction();
      previousFrequencyChannel := currentFrequencyChannel;
      currentFrequencyChannel := frequencyChannel;
      LinkChangeInd();
    }

    method SetTxPower(txPower: SByte)
      requires Valid()
      modifies this
      ensures Valid() && Model() == old(Model()).(link := N.SetTxPower(old(LinkState()), txPower))
    {
      if txPower > MAX_TX_POWER || txPower < MIN_TX_POWER {
        return;
      }
      radio := radio.(powerDbm := txPower);
      ResetPacketErrorFraction();
      previousTxPower := currentTxPower;
      currentTxPower := txPower;
      LinkChangeInd();
    }

    /** The four setter calls that both sides of a link change make with the requested settings. */
    method ApplySettings(spreadingFactor: Byte, signalBandwidth: Byte, frequencyChannel: Byte, txPower: SByte)
      requires Valid()
      modifies this
      ensures Valid()
      ensures Model() == old(Model()).(link :=
        N.ApplyQuad(old(LinkState()), Quad(spreadingFactor, signalBandwidth, frequencyChannel, txPower)))
    {
      SetSpreadingFactor(spreadingFactor);
      SetBandwidth(signalBandwidth);
      SetTxPower(txPower);
      SetFrequencyChannel(frequencyChannel);
    }

    /** The four setter calls that both sides make to fall back, each reading its own previous value in turn. */
    method RevertSettings()
      requires Valid()
      modifies this
      ensures Valid() && Model() == old(Model()).(link := N.RollBack(old(LinkState())))
    {
      SetSpreadingFactor(previousSpreadingFactor);
      SetBandwidth(previousSignalBandwidth);
      SetTxPower(previousTxPower);
      SetFrequencyChannel(previousFrequencyChannel);
    }

    // ---------- Sending ----------

    /** The library's acknowledged send: `ok` is its answer. */
    method SendtoWait(buf: seq<Byte>, dest: Byte, ok: bool) returns (acknowledged: bool)
      modifies this`trace
      ensures trace == N.Snoc(old(trace), N.Transmitted(buf, dest)) && acknowledged == ok
    {
      trace := N.Snoc(trace, N.Transmitted(buf, dest));
      acknowledged := ok;
    }

    method ServiceTx(destAddress: Byte, buf: seq<Byte>, sent: bool)
      requires Valid()
      modifies this
      ensures Valid() && Model() == old(Model()).(link := N.ServiceTx(old(LinkState()), destAddress, buf, sent))
    {
      var acknowledged := false;
      if |buf| > 0 {
        var ok := SendtoWait(buf, destAddress, sent);
        if ok {
          if destAddress != BROADCAST_ADDRESS {
            acknowledged := true;
            UpdatePacketErrorFraction(acknowledged);
          }
        } else {
          UpdatePacketErrorFraction(acknowledged);
        }
        trace := N.Snoc(trace, N.TxInd(buf, destAddress, acknowledged));
      }
    }

    /** Send the transmit buffer and empty it. */
    method ServiceTxMessage(destAddress: Byte, sent: bool)
      requires Valid()
      modifies this
      ensures Valid() && Model() == N.SendTxMessage(old(Model()), destAddress, sent)
    {
      ServiceTx(destAddress, txBuf[..txLen], sent);
      txLen := 0;
    }

    method HeartbeatReq(sent: bool)
      requires Valid()
      modifies this
      ensures Valid() && Model() == N.HeartbeatReq(old(Model()), sent)
    {
      ServiceTx(BROADCAST_ADDRESS, [MSG_HEARTBEAT_REQ, thisAddress], sent);
    }

    method StartHeartbeats()
      requires Valid()
      modifies heartbeatTimer
      ensures Valid() && Model() == old(Model()).(heartbeatTimer := old(heartbeatTimer.State()).Start())
    {
      heartbeatTimer.Start();
    }

    method StopHeartbeats()
      requires Valid()
      modifies heartbeatTimer
      ensures Valid() && Model() == old(Model()).(heartbeatTimer := old(heartbeatTimer.State()).Pause())
    {
      heartbeatTimer.Pause();
    }

    // ---------- Timers ----------

    method LinkChangeReqTimeout()
      requires Valid()
      modifies this, linkChangeTimeoutTimer
      ensures Valid() && Model() == N.LinkChangeReqTimeout(old(Model()))
    {
      linkChangeTimeoutTimer.ClearDone();
      RevertSettings();
    }

    method ServiceTimers(t: N.Tick)
      requires Valid()
      modifies this, clock, linkChangeTimeoutTimer, heartbeatTimer
      ensures Valid() && Model() == N.ServiceTimers(old(Model()), t)
    {
      clock.currentMillis := Wrap32(t.now);
      now := t.now;
      linkChangeTimeoutTimer.Update();
      heartbeatTimer.Update();
      assert Model() == N.UpdateTimers(old(Model()), t.now);
      if linkChangeTimeoutTimer.IsDone() {
        LinkChangeReqTimeout();
        linkChangeTimeoutTimer.ClearDone();
      }
      assert Model() == N.ServiceLinkTimer(N.UpdateTimers(old(Model()), t.now));
      if heartbeatTimer.IsDone() {
        HeartbeatReq(t.sent);
        heartbeatTimer.ClearDone();
      }
    }

    /** How both link-change handlers arm the rollback timer. */
    method ArmLinkTimer(timeout: Word32, t: N.Tick)
      requires Valid()
      modifies this, clock, linkChangeTimeoutTimer, heartbeatTimer
      ensures Valid() && Model() == N.ArmLinkTimer(old(Model()), timeout, t)
    {
      linkChangeTimeoutTimer.Pause();
      linkChangeTimeoutTimer.ClearDone();
      linkChangeTimeoutTimer.SetTimeout(timeout);
      ServiceTimers(t);
      linkChangeTimeoutTimer.Start();
    }

    // ---------- Link changes ----------

    method LinkChangeReq(destAddress: Byte, spreadingFactor: Byte, signalBandwidth: Byte, frequencyChannel: Byte,
        txPower: SByte, acked: bool, t: N.Tick)
      requires Valid()
      modifies this, clock, linkChangeTimeoutTimer, heartbeatTimer
      ensures Valid()
      ensures Model() == N.LinkChangeReq(old(Model()), destAddress,
        Quad(spreadingFactor, signalBandwidth, frequencyChannel, txPower), acked, t)
    {
      var message := [MSG_LINK_CHANGE_REQ, spreadingFactor, signalBandwidth, frequencyChannel, ToByte(txPower)];
      var acknowledged := SendtoWait(message, destAddress, acked);
      if acknowledged {
        ApplySettings(spreadingFactor, signalBandwidth, frequencyChannel, txPower);
        ArmLinkTimer(N.LINK_CHANGE_TIMEOUT_MILLIS, t);
      }
    }

    method ServiceLinkChangeReq(srcAddress: Byte, spreadingFactor: Byte, signalBandwidth: Byte, frequencyChannel: Byte,
        txPower: SByte, acked: bool)
      requires Valid()
      modifies this
      ensures Valid()
      ensures Model() == old(Model()).(link := N.EndLinkChange(N.StartLinkChange(old(LinkState()), srcAddress,
        Quad(spreadingFactor, signalBandwidth, frequencyChannel, txPower)), acked))
    {
      ApplySettings(spreadingFactor, signalBandwidth, frequencyChannel, txPower);
      var message := [MSG_LINK_CHANGE_RSP, currentSpreadingFactor, currentSignalBandwidth, currentFrequencyChannel,
                      ToByte(currentTxPower)];
      var acknowledged := SendtoWait(message, srcAddress, acked);
      if !acknowledged {
        RevertSettings();
      }
    }

    method ServiceLinkChangeRsp(t: N.Tick)
      requires Valid()
      modifies this, clock, linkChangeTimeoutTimer, heartbeatTimer
      ensures Valid() && Model() == N.ArmLinkTimer(old(Model()), N.TRUST_TIMEOUT_MILLIS, t)
    {
      ArmLinkTimer(N.SUCCESSFUL_PACKETS_BEFORE_LINK_IS_TRUSTED * N.HEARTBEAT_TIMEOUT_MILLIS
                   + N.LINK_CHANGE_TIMEOUT_MILLIS, t);
    }

    method ServiceHeartbeatReq(srcAddress: Byte, sent: bool)
      requires Valid()
      modifies this
      ensures Valid()
      ensures Model() == old(Model()).(link :=
        N.ServiceTx(old(LinkState()), srcAddress, [MSG_HEARTBEAT_RSP, thisAddress], sent))
    {
      ServiceTx(srcAddress, [MSG_HEARTBEAT_RSP, thisAddress], sent);
    }

    // ---------- Receiving ----------

    /** The library leaves the payload at the front of the receive buffer, and the user is told of it. */
    method AcceptPacket(p: N.Packet)
      requires Valid()
      modifies this`trace, rxBuf
      ensures Valid() && Model() == N.AcceptPacket(old(Model()), p)
    {
      forall i | 0 <= i < |p.payload| {
        rxBuf[i] := p.payload[i];
      }
      trace := N.Snoc(trace, N.RxInd(p.payload, p.src));
      assert rxBuf[..] == Store(old(rxBuf[..]), p.payload);
    }

    method HandlePacket(src: Byte, t: N.Tick, sent: bool)
      requires Valid()
      modifies this, clock, linkChangeTimeoutTimer, heartbeatTimer
      ensures Valid() && Model() == N.HandlePacket(old(Model()), src, t, sent)
    {
      if rxBuf[0] == MSG_LINK_CHANGE_REQ {
        ServiceLinkChangeReq(src, rxBuf[1], rxBuf[2], rxBuf[3], ToSByte(rxBuf[4]), sent);
      } else if rxBuf[0] == MSG_LINK_CHANGE_RSP {
        ServiceLinkChangeRsp(t);
      } else if rxBuf[0] == MSG_HEARTBEAT_REQ {
        ServiceHeartbeatReq(src, sent);
      }
    }

    method FinishPacket(t: N.Tick)
      requires Valid()
      modifies this, clock, linkChangeTimeoutTimer, heartbeatTimer
      ensures Valid() && Model() == N.FinishPacket(old(Model()), t)
    {
      UpdatePacketErrorFraction(true);
      if linkChangeTimeoutTimer.IsRunning() {
        linkChangeTimeoutTimer.Reset();
        if packetCount - packetErrorCount > N.SUCCESSFUL_PACKETS_BEFORE_LINK_IS_TRUSTED {
          linkChangeTimeoutTimer.Pause();
          linkChangeTimeoutTimer.ClearDone();
          ServiceTimers(t);
        }
      }
    }

    method ServiceRx(first: N.Tick, received: Option<N.Packet>, h: N.Tick, sent: bool, t: N.Tick)
      requires Valid()
      modifies this, clock, linkChangeTimeoutTimer, heartbeatTimer, rxBuf
      ensures Valid() && Model() == N.ServiceRx(old(Model()), first, received, h, sent, t)
    {
      ServiceTimers(first);
      if received.Some? {
        AcceptPacket(received.value);
        HandlePacket(received.value.src, h, sent);
        FinishPacket(t);
      }
    }

    // ---------- Serial port ----------

    method AppendTx(c: Byte)
      requires Valid() && txLen < MAX_MESSAGE_LEN
      modifies this`txLen, txBuf
      ensures Valid() && Model() == old(Model()).(tx := old(txBuf[..txLen]) + [c])
    {
      txBuf[txLen] := c;
      txLen := txLen + 1;
    }

    method AppendCmd(c: Byte)
      requires Valid() && cmdLen < MAX_MESSAGE_LEN
      modifies this`cmdLen, cmdBuf
      ensures Valid() && Model() == old(Model()).(cmd := old(cmdBuf[..cmdLen]) + [c])
    {
      cmdBuf[cmdLen] := c;
      cmdLen := cmdLen + 1;
    }

    /** Act on the command buffer. */
    method ExecuteCommand()
      requires Valid()
      modifies this
      ensures Valid() && Model() == old(Model()).(link := N.ExecuteCommand(old(LinkState()), old(cmdBuf[..cmdLen])))
    {
      if cmdLen >= 2 {
        var digit := cmdBuf[1] - N.ZERO;
        var number := if cmdLen == 2 then digit else digit * 10 + (cmdBuf[2] - N.ZERO);
        assert number == N.CommandValue(cmdBuf[..cmdLen]);
        match cmdBuf[0] as char {
          case 'S' => SetSpreadingFactor(ToByte(digit));
          case 'B' => SetBandwidth(ToByte(digit));
          case 'C' => SetFrequencyChannel(ToByte(number));
          case 'P' => SetTxPower(ToSByte(number));
          case _ =>
        }
      }
    }

    /** Like the program, this writes the transmit buffer unchecked: its callers keep the text within the buffer. */
    method BuildStringFromSerialInner(c: Byte) returns (r: Byte)
      requires Valid() && |N.SerialChar(Model(), c).tx| <= MAX_MESSAGE_LEN
      modifies this, txBuf, cmdBuf
      ensures Valid() && Model() == N.SerialChar(old(Model()), c)
      ensures r == N.SerialResult(old(Model()), c)
    {
      if c == N.BANG {
        serialCommandMode := true;
      }
      if serialCommandMode {
        if c != N.NEWLINE && c != N.RETURN && c != N.BANG && cmdLen < MAX_MESSAGE_LEN {
          AppendCmd(c);
        }
        if c == N.NEWLINE {
          ExecuteCommand();
          cmdLen := 0;
          serialCommandMode := false;
        }
        return 0;
      }
      if txLen == 0 {
        AppendTx(MSG_DATA_REQ);
      }
      assert txBuf[..txLen] == N.Opened(old(txBuf[..txLen]));
      if c == N.NEWLINE || c == N.RETURN {
        return 1;
      } else if c == N.HASH {
        AppendTx(N.ESCAPE);
      } else if c == N.STAR || c == N.SPACE {
      } else if c == N.AMPERSAND {
        AppendTx(N.RETURN);
      } else {
        AppendTx(c);
      }
      return 0;
    }

    /** Drain the serial port. When nothing was waiting the value returned is whatever was in memory. */
    method BuildStringFromSerial(input: seq<Byte>) returns (r: Byte)
      requires Valid() && |N.SerialRun(Model(), input).tx| <= MAX_MESSAGE_LEN
      modifies this, txBuf, cmdBuf
      ensures Valid()
      ensures Model() == Applied(old(Model()), Parse(old(serialCommandMode), old(cmdBuf[..cmdLen]), input))
      ensures input != [] ==> r == LastResult(old(Model()), input)
    {
      ghost var start := Model();
      r := *;
      var i := 0;
      while i < |input|
        invariant i <= |input| && Valid()
        invariant Model() == N.SerialRun(start, input[..i])
        invariant i > 0 ==> r == LastResult(start, input[..i])
      {
        ghost var before, after := input[..i], input[i + 1..];
        ChunkingIrrelevant(start, before, [input[i]]);
        ChunkingIrrelevant(start, before + [input[i]], after);
        TextOnlyGrows(N.SerialRun(start, before + [input[i]]), after);
        assert before + [input[i]] + after == input;
        assert N.SerialRun(Model(), [input[i]]) == N.SerialChar(Model(), input[i]);
        assert input[..i + 1] == before + [input[i]] && input[..i + 1][..i] == before;
        r := BuildStringFromSerialInner(input[i]);
        i := i + 1;
      }
      assert input[..i] == input;
      MachineMeetsSpecification(start, input);
    }
  }
}
