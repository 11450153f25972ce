# A model of the LoRa point-to-point link

Two microcontroller boards with LoRa radios talk over the class `loraPoint2Point`. This project models that class, the
polled timer it uses, and two boards running it, and proves what the link-change protocol guarantees.

**The protocol.** A client asks a server to move both radios to new settings (spreading factor, bandwidth, frequency
channel, power). The server acknowledges, switches, and probes the new link with a response; if that response is not
acknowledged it falls back. The client switches when its request is acknowledged and falls back on a timer, unless four
packets succeed on the new link first. Any message and any acknowledgement may be lost.

**What is proved of it**

* Whatever is lost, and even if requests overlap pending changes, once nothing is under way both nodes are on the same
  settings, those of the latest acknowledged response, unless some change *lapsed*: its response was acknowledged and
  the client rolled it back all the same (`Agreement.NodesAgree`).
* With one change at a time, the nodes end up apart exactly when a change has lapsed, and then for good
  (`Agreement.ApartExactlyWhenLapsed`, `Agreement.SplitIsForGood`). That can really happen (`Requests.ChangeCanLapse`).
* The guarantee holds for exactly those requests, valid or not, whose rejected fields are settled on both sides (the
  previous value is the current one), and that lead to another link, or to no change at all while the client has
  nothing else to go back to (`Requests.SafeExactly`). A change of power alone is not safe, in either direction
  (`Requests.PowerAloneMovesServer`, `Requests.PowerAloneMovesClient`). Each failure comes with a run in which time
  does not go backwards.
* A pending change ends only by rolling back or by trust after four successes, a quiet client is back between 3001 and
  3000 + gap ms after arming, and no pending change outlives 4 · (24000 + gap) ms, where gap bounds the time between
  clock readings. A client polled in time after the response never rolls back (`PendingChange`). All timer results hold
  across wraps of the 32-bit millisecond clock (`Timer`).
* Over any run k heartbeats take at least 7001 k ms; over any run that does not stop them, whatever is received, sent,
  changed or typed, they take at most (7000 + gap) k ms (`Heartbeats`).
* In every run a node has sent, recorded and told its user exactly what a specification in plain numbers calls for, in
  that order (`Visible.RunAdds`); so one request goes out for each call, and one answer for each message that asks for
  one, and answers are never answered (`Visible.EveryAnswerHasItsQuestion`).
* The deadlines hold to the millisecond: 3000, 24000 and 7000 ms are in time, one more is not, and the fourth success
  settles a change (`Deadlines`).
* The serial character machine, fed in any chunks, does what a batch specification says of the whole input (`Serial`).

**How it is built.** `Node` is one node as a value, with a function for every operation. `LoraPoint2PointProtocol` is
the class: fields, timers and buffers updated in place, each method proved to do what the function of the same name in
`Node` does. Everything else is proved about those functions: `NodeInvariants` (what every run keeps), `Visible` (what
each operation does, in the numbers of the air protocol and not in terms of those functions), `PendingChange`,
`Heartbeats`, `Deadlines`, `Serial`, and `TwoNodes` with `Agreement` and `Requests` (two nodes and a channel). Sequences of setter
or timer calls that the program repeats are methods here (`ApplySettings`, `RevertSettings`, `ArmLinkTimer`), and
`serviceRx` is split into the three parts it runs in order.

**What the surroundings answer** comes in as arguments: the reading of the clock (as a true time, which the class keeps
modulo 2^32), the result of each acknowledged send, the packet received, the characters waiting. User callbacks and
transmissions are recorded in a trace.

**What the channel promises** in `TwoNodes`: a message arrives only between radios on the same spreading factor,
bandwidth and channel, at a node that is not itself blocked in a send, and at most once; a send that returns true has
arrived; a send that returns false may have arrived. A blocked node sends nothing else. Client and server interleave
freely between sending, arrival and return, with no assumption about time. Three more things are assumed:

* A message is never handled after its send has returned, and reception and handling are one step. The program polls
  its timers before it reads (loraPoint2PointProtocol.cpp:651-653), so a response that lay in the radio's buffer at the
  deadline would be handled after the rollback, and would in time take the client off the settings it had returned to
  (`PendingChange.LateResponseLeavesHome`).
* Messages are not empty: `serviceTx` sends none. The one-node results cover empty packets too.
* No third node takes part: requests come from the client, and all that the client receives from the server.

**Integer widths.** Bytes and powers wrap at 8 bits where the program casts; a cast to one of the enums is a cast to an
unsigned byte, which is how the board's ABI stores them. Timer arithmetic wraps at 2^32.

**Where the code and its comments differ** the model follows the code:

* A setter ignores an invalid value; the header says it sets a default (loraPoint2PointProtocol.h:361).
* Valid powers are 2 to 20 dBm (loraPoint2PointProtocol.h:29-30) and valid bandwidths 0 to 2; the header's command
  table and its text on `linkChangeReq` say 1 to 20 and 0 to 3 (loraPoint2PointProtocol.h:531-533). A request for 1 dBm
  is acknowledged, and its power ignored.
* A received response re-arms the rollback timer for 24000 ms; the header says that it stops it
  (loraPoint2PointProtocol.h:523).
* The timeout for the response is 3000 ms; a comment says 5 s (loraPoint2PointProtocol.cpp:431).
* `buildStringFromSerial` returns 1 when the last character drained ends a line of data, not a number of characters; a
  line end followed by more input in the same call goes unreported (`Serial.LineEndCanGoUnreported`).
* The todo on `linkChangeReq` (loraPoint2PointProtocol.h:526) fears that an unacknowledged response leaves the nodes
  apart. For a change to another link it does not: the client's timer brings it back. What does is a response that is
  acknowledged. For a change of power alone the todo is right: the two still hear each other, so packets from the
  server can make the client trust the new power (`Requests.PowerAloneMovesClient`).

## Model

| member | source | states |
|---|---|---|
| `Agreement.NodesAgree` | loraPoint2PointProtocol.cpp:398-510 | Over every run of link changes and losses, with requests at any time, both nodes are on the settings of the latest acknowledged response once nothing is under way, unless a change lapsed |
| `Agreement.ApartExactlyWhenLapsed` | loraPoint2PointProtocol.cpp:422-452 | With requests made one at a time, two idle nodes disagree if and only if an acknowledged response was followed by a client rollback |
| `Agreement.SplitIsForGood` | loraPoint2PointProtocol.h:526 | Idle nodes on different links stay apart, on those settings, in every continuation |
| `Agreement.ResponseFindsPendingClient` | loraPoint2PointProtocol.cpp:500-510 | A response only reaches a client whose rollback timer runs, on the probed settings, when both sides share one fallback |
| `Agreement.PendingClientCanGoHome` | loraPoint2PointProtocol.cpp:426-436 | While the client's timer runs its fallback is the agreed settings, or the server has already committed to its current ones |
| `Agreement.AgreedWasRequested` | loraPoint2PointProtocol.cpp:484-498 | The agreed settings come from the initial ones by following some of the requests, in order, each rejected field left as it was |
| `Agreement.ValidAgreedWasRequested` | loraPoint2PointProtocol.h:515-524 | With valid requests the agreed settings are the initial ones or ones some request asked for, so a single round ends on the old or the new |
| `TwoNodes.StepKeepsProtocol` | loraPoint2PointProtocol.cpp:398-510 | Every step of either node and of the channel keeps the protocol's invariant, or lapses |
| `TwoNodes.RunKeepsInv` | loraPoint2PointProtocol.h:515-527 | The invariant holds after every run in which requests lead to another link from settings both sides can get back |
| `TwoNodes.ServingIsReceiving` | loraPoint2PointProtocol.cpp:678-684 | The server's two half-steps around its blocking send make up one receive step |
| `TwoNodes.RequestingIsOneCall` | loraPoint2PointProtocol.cpp:398-442 | A client's two moves, with anything the channel and the server do in between, are one call of the public request to the server's address |
| `TwoNodes.ServingIsOneReceive` | loraPoint2PointProtocol.cpp:678-684 | A server's two moves, with anything in between, are one receive step for the request as the client sent it |
| `TwoNodes.DeliveredAsSent` | loraPoint2PointProtocol.cpp:405-422 | Over every run, a request or response that arrives is the last transmission of the other side, from its address to the receiver, and its settings are read back unchanged |
| `TwoNodes.MoveEffect` | loraPoint2PointProtocol.cpp:398-510 | Each of the thirteen moves keeps both nodes sound and does to settings, fallbacks, timer and successes exactly what the protocol needs to know of it |
| `TwoNodes.PlainEffect` | loraPoint2PointProtocol.cpp:672-709 | A packet outside the protocol changes no settings, adds a success, and from the fourth success on leaves no change pending |
| `TwoNodes.ResponseEffect` | loraPoint2PointProtocol.cpp:500-510 | A response changes no settings, adds a success and leaves the timer running for 24000 ms, unless it brings trust itself |
| `Requests.SafeExactly` | loraPoint2PointProtocol.h:516-533 | A request, valid or not, is safe in every run of its round if and only if both sides have settled each rejected field, and it leads to another link, or to no change while the client is settled |
| `Requests.PowerAloneMovesServer` | loraPoint2PointProtocol.cpp:398-510 | For every change of power alone there is a run that leaves only the server on the new power, with nothing lapsed |
| `Requests.PowerAloneMovesClient` | loraPoint2PointProtocol.cpp:488-497 | For every change of power alone there is a run that leaves only the client on the new power, after a response that was not acknowledged |
| `Requests.NoChangeCanLeaveHome` | loraPoint2PointProtocol.cpp:500-510 | A request that changes nothing can take a client that is not settled back to older settings |
| `Requests.ServerFallsElsewhere` | loraPoint2PointProtocol.cpp:488-495 | With a rejected field that the server had not settled, lost acknowledgements leave the server alone on older settings |
| `Requests.ClientFallsElsewhere` | loraPoint2PointProtocol.cpp:444-452 | With a rejected field that only the client had not settled, a lost response leaves the client alone on older settings |
| `Requests.ChangeCanLapse` | loraPoint2PointProtocol.cpp:500-510 | From every start and for every request for another link there is a timely run that lapses and splits the nodes |
| `Requests.ChangeSucceeds` | loraPoint2PointProtocol.h:516-524 | From every start and for every request that both sides could take back there is a timely run in which both nodes move and the change is settled |
| `Visible.RunAdds` | loraPoint2PointProtocol.cpp:20-712 | Over every run the transmissions, outcomes and user callbacks of a node are those its steps call for, in order |
| `Visible.StepAdds` | loraPoint2PointProtocol.cpp:20-712 | Each of the twelve operations adds exactly the transmissions, outcomes and callbacks listed for it in plain numbers |
| `Visible.EveryAnswerHasItsQuestion` | loraPoint2PointProtocol.cpp:672-696 | Over every run there is one request for each one made, one link-change response for each request received and one heartbeat response for each heartbeat received |
| `Visible.RequestAdds` | loraPoint2PointProtocol.cpp:398-442 | A request puts [3, settings] on the air once, to its destination; only the heartbeat due at the arming poll may follow, and unacknowledged nothing else changes |
| `Visible.ReceiveAdds` | loraPoint2PointProtocol.cpp:649-712 | A packet is reported, answered according to its kind 3, 4 or 7, and counted as a success; a change then stays pending up to three successes |
| `Visible.ReceiveState` | loraPoint2PointProtocol.cpp:672-711 | The settings, fallback, clock and both timers after any packet, acknowledged or not, pending or not |
| `Visible.OtherMessagesOnlyCount` | loraPoint2PointProtocol.cpp:691-711 | A message of any other kind, heartbeat responses included, is not answered, changes no settings and is exactly one success |
| `Visible.TextIsRecorded` | loraPoint2PointProtocol.cpp:600-647 | Sending the text records its outcome as the radio answers it, tells the user the same, and empties the buffer; a broadcast that went out records none |
| `Visible.SendAdds` | loraPoint2PointProtocol.cpp:606-647 | A send is the message, then its outcome, then the report to the user |
| `Visible.PollAdds` | loraPoint2PointProtocol.cpp:543-558 | A poll goes back to the old settings if that is due, telling the user of each field, and then sends a heartbeat if that is due |
| `Visible.RollbackComesFirst` | loraPoint2PointProtocol.cpp:548-557 | When both timers fire in one poll, the heartbeat goes out on the restored settings and its outcome is counted there |
| `Visible.ApplyAdds` | loraPoint2PointProtocol.cpp:426-429 | A link change tells the user of each accepted field in turn: spreading factor, bandwidth, power, channel |
| `Visible.CommandAdds` | loraPoint2PointProtocol.cpp:320-353 | A command sets what its letter and digits say; any other letter or a single character does nothing |
| `Visible.SettersProgram` | loraPoint2PointProtocol.cpp:185-257 | Each setter writes its number to the radio in dBm, Hz and MHz, if it exists |
| `Visible.SettersSet` | loraPoint2PointProtocol.cpp:176-272 | An accepted value becomes the current one and what was current the one to go back to; a rejected one changes nothing |
| `Visible.ChannelPlan` | loraPoint2PointProtocol.h:579 | Channels 0 to 7 are 1.6 MHz apart from 903.0 MHz, channels 8 to 15 are 0.6 MHz apart from 923.3 MHz |
| `Visible.RadioProgrammed` | loraPoint2PointProtocol.cpp:185-257 | Over every run the radio holds the numbers that the current settings stand for, within 902 to 928 MHz |
| `Visible.PowerOn` | loraPoint2PointProtocol.h:562-603 | A node fresh from setup is on SF7, 500 kHz, 903.0 MHz and 2 dBm, with both timers stopped and nothing counted |
| `Visible.StepTouches` | loraPoint2PointProtocol.cpp:274-712 | Which step may change which buffer, timer and clock reading; an acknowledged request leaves its timer at 3000 ms |
| `Deadlines.RequestDeadline` | loraPoint2PointProtocol.cpp:430-436 | After an acknowledged request, polls through 3000 ms stay on the new settings and one from 3001 ms on goes back |
| `Deadlines.ResponseDeadline` | loraPoint2PointProtocol.cpp:500-510 | After a response a change is pending if fewer than three successes went before; then polls through 24000 ms stay and one from 24001 ms on goes back |
| `Deadlines.PacketRenews` | loraPoint2PointProtocol.cpp:697-702 | A packet that leaves a change pending gives it as long again from the last clock reading |
| `Deadlines.FourthSuccessBringsTrust` | loraPoint2PointProtocol.cpp:703-709 | A pending change survives any packets that make up to three successes, and not one more |
| `Deadlines.FourPacketsSettleAChange` | loraPoint2PointProtocol.cpp:697-709 | A change made by an acknowledged request is settled by the fourth packet and not by the third |
| `Deadlines.HeartbeatDeadline` | loraPoint2PointProtocol.cpp:553-557 | A poll sends a heartbeat from 7001 ms after the last one on, and not through 7000 ms |
| `Deadlines.FirstHeartbeat` | loraPoint2PointProtocol.cpp:512-516 | Heartbeats that are started count from the poll before |
| `Deadlines.StoppedHeartbeats` | loraPoint2PointProtocol.cpp:518-521 | After stopping, no poll sends a heartbeat |
| `PendingChange.PendingEndsOnlyBy` | loraPoint2PointProtocol.cpp:697-709 | In every run a pending change ends only by an expired poll that swaps the settings back, or by a packet with at least four successes recorded on the current settings |
| `PendingChange.RollbackDeadline` | loraPoint2PointProtocol.cpp:430-436 | A client that receives nothing, whatever it sends and whatever text is typed, is on what the request led to through 3000 ms and on its fallback by 3000 ms plus the polling gap |
| `PendingChange.ArmedRunsFrom` | loraPoint2PointProtocol.cpp:426-436 | An acknowledged request leaves the timer counting from the moment of arming, whatever its state was, the accepted fields switched and the rejected ones left alone |
| `PendingChange.PendingIsBounded` | loraPoint2PointProtocol.cpp:649-711 | At most three packets less the successes already there arrive while a change stays pending, within one deadline for each success missing |
| `PendingChange.ChangeAlwaysEnds` | loraPoint2PointProtocol.cpp:649-711 | No change is still pending 4 times (24000 ms plus the gap) after arming, when no setter, acknowledged request, request from the peer or serial command intervenes |
| `PendingChange.ChangeIsKept` | loraPoint2PointProtocol.h:521-524 | While polls find the timer unexpired and packets renew it, the client stays on the new settings, and the packet that completes four successes ends the change by trust |
| `PendingChange.ResponseStartsKeeping` | loraPoint2PointProtocol.cpp:500-510 | The response brings the client into that state, with 24000 ms from the moment it is handled |
| `PendingChange.LateResponseLeavesHome` | loraPoint2PointProtocol.cpp:649-655 | A response handled after the rollback arms the timer again and, if no packet follows, takes the client off its settings |
| `PendingChange.PacketEffect` | loraPoint2PointProtocol.cpp:649-711 | Any packet but a request keeps the settings, adds a success and leaves a change pending exactly when one was or a response came and successes are at most three |
| `PendingChange.QuietRun` | loraPoint2PointProtocol.cpp:543-552 | Without packets, setters, acknowledged requests and serial commands the settings are exchanged once for each firing of the timer, which fires at most once |
| `PendingChange.RollbackSwaps` | loraPoint2PointProtocol.cpp:444-452 | A rollback exchanges current and previous settings, and a second one restores settings and radio |
| `PendingChange.RollbackRestoresExactly` | loraPoint2PointProtocol.cpp:490-495 | Switching to any settings and rolling back restores the old ones if and only if each rejected field had equal previous and current values |
| `NodeInvariants.AlwaysSound` | loraPoint2PointProtocol.h:562-584 | Over every run, the radio is programmed to the current valid settings, the user was last told of them, fallbacks are valid, counters match the packets since the last change, no done flag stays set, data mode has an empty command buffer |
| `NodeInvariants.SetupIsSound` | loraPoint2PointProtocol.cpp:141-145 | Setup establishes that invariant whatever the radio held before |
| `NodeInvariants.ApplyAny` | loraPoint2PointProtocol.cpp:176-272 | The four setters, on any arguments, switch exactly the accepted fields, make their old values the fallback and keep the rest; successes restart if any is accepted |
| `NodeInvariants.TimersSound` | loraPoint2PointProtocol.cpp:543-558 | A poll swaps the settings exactly when the rollback timer fires and clears both flags |
| `NodeInvariants.FinishSound` | loraPoint2PointProtocol.cpp:697-709 | A received packet is a success and stops a pending change exactly when it is at least the fourth; otherwise it restarts the deadline |
| `NodeInvariants.TxRecords` | loraPoint2PointProtocol.cpp:606-647 | A send records one outcome, its acknowledgement; a broadcast reported as sent records none |
| `NodeInvariants.ServiceRxIsRun` | loraPoint2PointProtocol.cpp:649-651 | A receive call is a poll followed by at most one packet |
| `NodeInvariants.SerialRunIsRun` | loraPoint2PointProtocol.cpp:274-285 | Draining the serial port is a run of single-character steps |
| `Heartbeats.HeartbeatsNeverTooOften` | loraPoint2PointProtocol.cpp:512-558 | In every run k heartbeats after a reference take at least 7001 k ms of true time |
| `Heartbeats.HeartbeatsOftenEnough` | loraPoint2PointProtocol.cpp:512-558 | In every run that does not stop heartbeats, with clock readings at most a gap apart, k heartbeats take at most k times 7000 ms plus the gap, and the last is less than 7001 ms old at the latest reading |
| `Heartbeats.QuietHeartbeatTimes` | loraPoint2PointProtocol.cpp:543-558 | In a run without packets, setters, acknowledged requests or serial commands, heartbeats come at exactly the polls where they would on a clock that never wraps, each 7001 to 7000 plus gap ms after the one before |
| `Heartbeats.PollBeats` | loraPoint2PointProtocol.cpp:553-557 | A poll sends exactly one heartbeat when that timer fires and none otherwise |
| `Heartbeats.HeartbeatIsAnswered` | loraPoint2PointProtocol.cpp:530-536 | A received heartbeat, whatever follows its first byte, is answered once, to its sender; both outcomes are recorded; a heartbeat is sent only if the packet brings trust and one is due |
| `ErrorFraction.FractionExtremes` | loraPoint2PointProtocol.h:305-308 | The error fraction is between 0 and 1, 0 only without errors and 1 only without successes |
| `ErrorFraction.PlainRateAtFirst` | loraPoint2PointProtocol.cpp:20-26 | For the first six packets the fraction is errors over packets |
| `ErrorFraction.ErrorRaisesByWeight` | loraPoint2PointProtocol.cpp:20-26 | Turning a success into an error raises the fraction by exactly that packet's positive weight |
| `ErrorFraction.FractionMonotone` | loraPoint2PointProtocol.cpp:20-26 | A history with more errors, outcome by outcome, never has a lower fraction |
| `Timer.TimerRefinesIdeal` | simpleTimer.h:104-141 | Over every polling history with gaps short enough, the wrapping timer fires when one on an unbounded clock does |
| `Timer.FiresExactly` | simpleTimer.h:118-121 | A poll answers as an unbounded clock would, except exactly when elapsed time has wrapped back below the timeout |
| `Timer.NeverEarly` | simpleTimer.h:118-121 | A timer never fires before its timeout has truly elapsed since its reference |
| `Timer.FireSpacing` | simpleTimer.h:104-141 | A repeating timer fires more than its timeout and at most timeout plus gap apart |
| `Timer.OneShotFiresOnce` | simpleTimer.h:127-131 | A one-shot timer fires once, in that window, if and only if it is polled past its timeout |
| `Timer.SimpleTimer.Update` | simpleTimer.h:104-141 | The in-place update does what the timer function says for the shared clock |
| `Timer.SimpleTimer.constructor` | simpleTimer.h:46-55 | A new timer is stopped, not done, with reference 0 |
| `Timer.SimpleTimer.Reset` | simpleTimer.h:84-87 | The reference becomes the shared clock's reading |
| `Serial.MachineMeetsSpecification` | loraPoint2PointProtocol.cpp:300-388 | From any state and for any input, mode, both buffers and executed commands are those of a batch parse of the whole input |
| `Serial.ChunkingIrrelevant` | loraPoint2PointProtocol.cpp:274-285 | Splitting the input between calls makes no difference to the state |
| `Serial.CommandLine` | loraPoint2PointProtocol.cpp:302-357 | A line from '!' to newline executes its text cut to 128 characters and changes nothing else |
| `Serial.ChannelCommand` | loraPoint2PointProtocol.cpp:330-339 | Typing a number from 0 to 99 as a channel sets exactly that channel if it exists and leaves pending text alone |
| `Serial.PowerCommand` | loraPoint2PointProtocol.cpp:340-349 | Typing a number as a power sets it from 2 to 20 dBm and otherwise changes nothing |
| `Serial.SpreadingFactorCommand` | loraPoint2PointProtocol.cpp:324-326 | Only the first digit is read, and sets the spreading factor if it exists |
| `Serial.BandwidthCommand` | loraPoint2PointProtocol.cpp:327-329 | Only the first digit is read, and sets the bandwidth if it exists |
| `Serial.LettersArePower` | loraPoint2PointProtocol.cpp:340-349 | Any two characters after P, digits or not, are read as a number modulo 256 with its sign, and set the power from 2 to 20 dBm |
| `Serial.LettersAreChannel` | loraPoint2PointProtocol.cpp:330-339 | Any two characters after C, digits or not, are read as a number modulo 256, and set that channel if it exists |
| `Serial.SpecialsAreReplaced` | loraPoint2PointProtocol.cpp:366-385 | How often each byte occurs in the encoded text, given the typed text |
| `Serial.PlainTextIsUnchanged` | loraPoint2PointProtocol.cpp:381-384 | Text without special characters is sent as typed |
| `Serial.TypedTextIsSent` | loraPoint2PointProtocol.cpp:600-604 | Typed text joins what was typed before and goes on the air once, encoded, behind one type byte 1; outcome and report follow, and the buffer is emptied |
| `Serial.OtherCommands` | loraPoint2PointProtocol.cpp:320-353 | A command line with an unknown letter, or of one character, changes nothing at all |
| `Serial.ReportsOnlyLastLineEnd` | loraPoint2PointProtocol.cpp:274-285 | A call returns 1 if and only if the last character drained is a line end outside a command |
| `Serial.LineEndCanGoUnreported` | loraPoint2PointProtocol.cpp:278-284 | The same line end followed by another character in one call is not reported |
| `Settings.QuadRoundTrip` | loraPoint2PointProtocol.cpp:405-409 | Settings survive encoding, the receive buffer and decoding, negative powers included |
| `Settings.StoreKeepsTail` | loraPoint2PointProtocol.cpp:653-666 | A message covers the front of the receive buffer and leaves the rest as it was |
| `LoraPoint2PointProtocol.LoraPoint2Point.constructor` | loraPoint2PointProtocol.h:562-603 | A new object is a node at power-on |
| `LoraPoint2PointProtocol.LoraPoint2Point.SetupRadio` | loraPoint2PointProtocol.cpp:116-146 | Setup programs the defaults if the radio answers and changes nothing otherwise |
| `LoraPoint2PointProtocol.LoraPoint2Point.UpdatePacketErrorFraction` | loraPoint2PointProtocol.cpp:20-26 | The counters and the fraction take one moving-average step |
| `LoraPoint2PointProtocol.LoraPoint2Point.SetSpreadingFactor` | loraPoint2PointProtocol.cpp:176-197 | The setter in place: ignored if invalid, else radio, statistics, previous, current and callback |
| `LoraPoint2PointProtocol.LoraPoint2Point.SetBandwidth` | loraPoint2PointProtocol.cpp:199-220 | The same for the bandwidth |
| `LoraPoint2PointProtocol.LoraPoint2Point.SetFrequencyChannel` | loraPoint2PointProtocol.cpp:222-250 | The same for the channel |
| `LoraPoint2PointProtocol.LoraPoint2Point.SetTxPower` | loraPoint2PointProtocol.cpp:252-272 | The same for the power |
| `LoraPoint2PointProtocol.LoraPoint2Point.LinkChangeReq` | loraPoint2PointProtocol.cpp:398-442 | The client's request in place, for both answers of its send |
| `LoraPoint2PointProtocol.LoraPoint2Point.LinkChangeReqTimeout` | loraPoint2PointProtocol.cpp:444-452 | The client's rollback in place |
| `LoraPoint2PointProtocol.LoraPoint2Point.ServiceLinkChangeReq` | loraPoint2PointProtocol.cpp:454-498 | The server's handler in place, for both answers of its send |
| `LoraPoint2PointProtocol.LoraPoint2Point.ServiceLinkChangeRsp` | loraPoint2PointProtocol.cpp:500-510 | The client's handler of the response in place |
| `LoraPoint2PointProtocol.LoraPoint2Point.ServiceTimers` | loraPoint2PointProtocol.cpp:543-558 | One poll of both timers in place, over the shared clock |
| `LoraPoint2PointProtocol.LoraPoint2Point.ServiceTx` | loraPoint2PointProtocol.cpp:606-647 | A send in place, with its statistics and callback |
| `LoraPoint2PointProtocol.LoraPoint2Point.ServiceTxMessage` | loraPoint2PointProtocol.cpp:600-604 | The transmit buffer is sent and emptied |
| `LoraPoint2PointProtocol.LoraPoint2Point.ServiceRx` | loraPoint2PointProtocol.cpp:649-712 | A receive call in place, with its dispatch, postponement and trust |
| `LoraPoint2PointProtocol.LoraPoint2Point.BuildStringFromSerialInner` | loraPoint2PointProtocol.cpp:300-388 | One character through the machine, on the real buffers |
| `LoraPoint2PointProtocol.LoraPoint2Point.BuildStringFromSerial` | loraPoint2PointProtocol.cpp:274-285 | The loop over the waiting characters meets the batch specification |
| `LoraPoint2PointProtocol.LoraPoint2Point.ResetPacketErrorFraction` | loraPoint2PointProtocol.cpp:28-33 | Fraction and counters go back to zero |
| `LoraPoint2PointProtocol.LoraPoint2Point.ApplySettings` | loraPoint2PointProtocol.cpp:426-429 | The four setter calls of a link change, in their order |
| `LoraPoint2PointProtocol.LoraPoint2Point.RevertSettings` | loraPoint2PointProtocol.cpp:448-451 | Four setter calls that each read their own previous value are one exchange of all settings |
| `LoraPoint2PointProtocol.LoraPoint2Point.ArmLinkTimer` | loraPoint2PointProtocol.cpp:503-509 | Pause, clear, set timeout, service, start, in place |
| `LoraPoint2PointProtocol.LoraPoint2Point.HeartbeatReq` | loraPoint2PointProtocol.cpp:523-528 | A heartbeat is a two-byte broadcast |
| `LoraPoint2PointProtocol.LoraPoint2Point.StartHeartbeats` | loraPoint2PointProtocol.cpp:512-516 | Starting heartbeats starts their timer and keeps its reference |
| `LoraPoint2PointProtocol.LoraPoint2Point.StopHeartbeats` | loraPoint2PointProtocol.cpp:518-521 | Stopping heartbeats pauses their timer |
| `LoraPoint2PointProtocol.LoraPoint2Point.ServiceHeartbeatReq` | loraPoint2PointProtocol.cpp:530-536 | The answer to a heartbeat in place |
| `LoraPoint2PointProtocol.LoraPoint2Point.AcceptPacket` | loraPoint2PointProtocol.cpp:653-666 | A packet overwrites the front of the receive buffer and keeps what lay behind it |
| `LoraPoint2PointProtocol.LoraPoint2Point.HandlePacket` | loraPoint2PointProtocol.cpp:672-696 | The handler is chosen by the first byte of the buffer |
| `LoraPoint2PointProtocol.LoraPoint2Point.FinishPacket` | loraPoint2PointProtocol.cpp:697-709 | The packet is counted and the pending change postponed or trusted, in place |
| `LoraPoint2PointProtocol.LoraPoint2Point.ExecuteCommand` | loraPoint2PointProtocol.cpp:320-353 | The command buffer is acted on in place, casts included |
| `Timer.SimpleTimer.Pause` | simpleTimer.h:61-64 | Pausing only stops the timer |
| `Timer.SimpleTimer.Start` | simpleTimer.h:70-73 | Starting keeps the reference |
| `Timer.SimpleTimer.SetTimeout` | simpleTimer.h:75-78 | Only the timeout changes |
| `Timer.SimpleTimer.ClearDone` | simpleTimer.h:93-96 | Only the flag changes |
| `Timer.StoppedNeverFires` | simpleTimer.h:134-140 | A stopped timer fires at no poll |
| `NodeInvariants.StepSound` | loraPoint2PointProtocol.cpp:649-712 | Every operation keeps the node invariant |
| `NodeInvariants.ArmSound` | loraPoint2PointProtocol.cpp:432-436 | Arming leaves a known timer state, keeps settings and successes, and polls the heartbeat timer |
| `Serial.RunIsSound` | loraPoint2PointProtocol.cpp:300-388 | Serial input, commands included, keeps the node invariant |
| `Agreement.FreshPairIsInitial` | loraPoint2PointProtocol.cpp:116-146 | Two nodes fresh from setup may start the protocol |
| `Agreement.RunKeepsSequential` | loraPoint2PointProtocol.cpp:398-510 | With one change at a time every reachable state is either within the protocol or split |
| `TwoNodes.EndServingEffect` | loraPoint2PointProtocol.cpp:484-497 | The server ends on the new settings if acknowledged and on the old ones otherwise |
| `PendingChange.PacketStopsByTrust` | loraPoint2PointProtocol.cpp:697-709 | A packet ends a pending change only with more than three successes |

## Left out

- LoraPoint2PointProtocol.LoraPoint2Point.UpdatePacketErrorFraction: does not model the counters wrapping at 2^32, because a wrapped count divides by zero; nor floating-point rounding, reals are used.
- LoraPoint2PointProtocol.LoraPoint2Point.BuildStringFromSerialInner: requires the transmit text to stay within its 128 bytes, because the program writes past the buffer otherwise.
- LoraPoint2PointProtocol.LoraPoint2Point.SetFrequencyChannel: assumes that the radio accepts every table frequency; the program loops forever if it does not.
- Agreement.NodesAgree: one node only asks and the other only serves; both asking each other, local setters and serial commands during a change are not covered. The requests it does not cover are those that Requests.SafeExactly shows to be unsafe, or harmless because they change nothing.
- PendingChange.RollbackDeadline: bounds time for one node; the two-node results hold with no assumption about time, except that Requests.SafeExactly considers only runs in which time does not go backwards.
- User callbacks that call back into the class.
- Timer callbacks: both timers of the class are built without one.
- The RadioHead library, pins, SPI, delays and signal-to-noise readings: seen only as the answers described above.
- `setTxMessage`, documented as for debugging, and the UART overload of `buildStringFromSerial`, whose body is the same.
- Printing, including that of table entries for settings that the setters then reject (loraPoint2PointProtocol.cpp:413-417); the increment operators of the enums, and the getters.
- The board examples, the sensor headers and the lightweight header, which hold no protocol logic.
