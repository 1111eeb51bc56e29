# rtpmidid: a model of its core, with proofs

rtpmidid carries MIDI over RTP. This project models the parts of it that decide what arrives:

- `IoBytes.dfy`: the cursors that read and write packets.
- `MidiList.dfy`: delta times and the MIDI list of RFC 6295 with running status and SysEx segments; a decoder that follows the source octet by octet, a grammar of lists, a receiver of commands, and the proof that the first does with every list of the second what the third says.
- `RtpPeer.dfy`: one peer. A function for every operation says what it does to the state and what it raises; the class does it with cursors and fields, and is proved equal.
- `SysexCutter.dfy`, `SysexPath.dfy`: cutting a SysEx, framing the fragments, and putting it together again, end to end.
- `PeerRules.dfy`: what single packets do to a peer: which count, which are not heard, and what its own say.
- `Session.dfy`: two peers over two ports and a network that loses, duplicates and reorders.
- `RtpServer.dfy`: the server's list of peers under any interleaving of packets and timers.
- `ServerRules.dfy`: which peer a packet is for, and who stays on the list and who goes.
- `RtpClient.dfy`: the connecting client, whose actions raise events and whose signals come back while it acts.
- `Signal.dfy`, `Poller.dfy`: signals and timers whose callbacks change them while they run.
- `MidiRouter.dfy`, `MidiNormalizer.dfy`, `StateMachineGenerator.dfy`: routing, cutting a raw stream into messages, and the script that writes the client's switch.
- `Wrappers.dfy`: optional values and exceptions.

Where the source updates fields in place there is a class whose methods have contracts in terms of functions on values, and the laws are lemmas about these functions. `dafny verify dfyconfig.toml` checks everything.

Some promises turned out not to hold of the code. They are stated with the exact condition under which they do:

- A timer of 2^31 - 1 milliseconds or more is seen expired too early (`Pollers.NeverEarlyIff`).
- Removing a peer from the router leaves a wrong count of connections exactly when it sent to a peer that sends to nobody (`MidiRouters.RemoveKeepsGoodIff`, `MidiRouters.RemoveCanUnbalance`).
- A client that goes to Error while it has an address list keeps it, and its next pass never resolves the endpoint that was added last (`RtpClients.LeftOverListHidesAnEndpoint`; `RtpClients.LateAnswerLeavesList` is a run that comes there, by a late clock answer, and ends without having resolved its only endpoint).
- The normalizer frames a message exactly if no unknown octet is kept before it, and unknown octets can block it for good (`MidiNormalizers.FramedIffNothingKept`, `MidiNormalizers.UnknownOctetsBlock`).
- While a SysEx is pending every other command is refused, real-time messages too, which RFC 6295 section 3.2 would allow (`MidiList.CommandRefines`, `SysexPath.PendingSysexRefusesTheRest`).
- The undefined real-time command 0xFD and the undefined common command 0xF5 are not in the table of lengths: they throw, and the rest of the packet is lost. An F5 in place of a dropped F7 is not known either: it makes a whole SysEx a first segment, so that what follows is refused, and behind a later segment it throws and leaves the SysEx pending.
- A segment that goes on with a SysEx of which nothing has come, because the packet with its first segment was lost, is raised raw, as F7 ... F7 or F7 F4 (`MidiList.StraySegmentsAreRaised`, `SysexPath.LostFirstSegment`). A SysEx that comes in segments and has no data is not raised, though a whole one without data is.
- `MidiList.ListDecodedAsMeantIff` and `SysexPath.PacketReceivedAsMeantIff` give the exact condition under which a list comes out as it is meant, `MidiList.FirstUnhandled` what happens at the first command where it fails. Two mistakes can make up for each other: F0 d F5 with data and a stray F7 F7 behind it come out as the F0 d F7 that was meant.
- An F4 without a closing F7 takes everything up to the next status octet with it (`MidiList.UnendedCommonSwallows`).
- The server looks at the two octets behind the first two of every packet for a command, without the signature in front: a MIDI packet whose sequence number is one of the six command words goes to the wrong peer or to none (`ServerRules.MidiIsFor`, `ServerRules.MidiReachesItsPeerIff`).
- A BY or a NO replaces the initiator before anything is tested, so that one from a stranger makes a peer refuse the OK that it waits for (`PeerRules.StrangerSpoilsInvitationIff`).
- What one side reports as received the other always reads as 0 (`PeerRules.FeedbackIsReadIff`).
- A delta time is read in full whatever its length, and only 32 bits of it are kept (`MidiList.ReadDeltaInvertsForm`); the limit of four octets is not enforced.
- The diagram leads from an exhausted list of endpoints to Error by ResolveListExhausted; the code raises ConnectListExhausted there and comes to Error by the default of the switch.

## Model

| member | source | states |
|---|---|---|
| `MidiList.ListRefines` | lib/rtppeer.cpp:492-571 | for every well-formed MIDI list of RFC 6295, sections 3.1 and 3.2, with the undefined commands and dropped F7s that these allow, and for any decoder state: the decoder does with the list what the receiver does with its commands, one after the other; it skips exactly their delta times and stops at the end of the list, or throws where the receiver does |
| `MidiList.ListDecodedAsMeantIff` | lib/rtppeer.cpp:492-571 | the decoder makes of any such list, in any state, what its commands mean, and ends at its end, if and only if each command is handled at its place: it is in the table of lengths (which lacks 0xFD and 0xF5), no SysEx ends with F5, a segment goes on with a SysEx that is pending, nothing else comes while one is pending, and what segments put together is not empty; with one exception, in which two mistakes make up for each other (a whole SysEx that ends with F5, and stray segments without data behind it) |
| `MidiList.ReceivedAsMeantIff` | lib/rtppeer.cpp:492-571 | the same condition for sequences of commands, over any number of lists; what a command means is defined apart from what becomes of it |
| `MidiList.InOrderIff` | lib/rtppeer.cpp:573-629 | where no segment comes without the first one of its SysEx the exception does not arise: commands come out as they are meant if and only if each is handled |
| `MidiList.StraySegmentsAreRaised` | lib/rtppeer.cpp:544-562 | any run of segments of which the first was lost is raised, each as if it were a message, although none of it means anything |
| `MidiList.FirstUnhandled` | lib/rtppeer.cpp:525-532 | what happens at the first command that is not handled: the messages before it are raised, then the list is given up with what was pending still pending; or it goes on, with a SysEx that ends with F5 taken for a first segment, a stray segment raised as if it were a message, and an empty SysEx dropped |
| `MidiList.CommandRefines` | lib/rtppeer.cpp:509-562 | one command of the table is taken to the same effect, and with the same exception, as the receiver takes it: a message with its status restored, or more of the SysEx, or a refusal |
| `MidiList.CompleteCommands` | lib/rtppeer.cpp:534-562 | commands that are no segments of a cut SysEx come out as exactly one message each, in order, statuses restored, if and only if the decoder knows them all |
| `MidiList.UnendedCommonSwallows` | lib/rtppeer.cpp:432-443 | an F4 without a closing F7 becomes one message with everything up to the next status octet, delta times and that octet included |
| `MidiList.ReadDeltaInvertsForm` | lib/rtppeer.cpp:456-468 | read_delta_time returns the value of every encoding, padded or not, of any length, cut to 32 bits, and the cursor is right behind it |
| `MidiList.ReadDeltaInvertsRfcForm` | lib/rtppeer.cpp:456-468 | every value below 2^28 in one to four octets comes back unchanged |
| `MidiList.EveryDeltaIsAForm` | lib/rtppeer.cpp:456-468 | the inversion leaves no well-formed delta time out |
| `MidiList.ReadDeltaAdvances` | lib/rtppeer.cpp:456-468 | on every well-formed delta time the cursor advances by exactly its octets |
| `MidiList.ContinuationRefines` | lib/rtppeer.cpp:585-622 | a middle, last or cancelling segment extends, completes or drops the SysEx in the buffer; one that ends with F5 is stored and throws |
| `MidiList.FirstSegmentRefines` | lib/rtppeer.cpp:534-549 | a first segment begins a SysEx, stored behind the octet in front of it, whatever ends it but F7 |
| `RtpPeers.RtpPeer.ReadDeltaTime` | lib/rtppeer.cpp:456-468 | the loop over the cursor computes the function that those lemmas are about |
| `RtpPeers.RtpPeer.SysexLength` | lib/rtppeer.cpp:432-443 | the scan for the end of a SysEx computes that function |
| `RtpPeers.RtpPeer.NextMidiPacketLength` | lib/rtppeer.cpp:377-454 | the length of the next command, with its effect on running_status |
| `RtpPeers.RtpPeer.ParseSysex` | lib/rtppeer.cpp:573-629 | a segment in place: buffer, signal and exceptions are those of the decoder function |
| `RtpPeers.RtpPeer.EndSegment` | lib/rtppeer.cpp:599-628 | the three ways in which a continued segment ends |
| `RtpPeers.RtpPeer.ParseOneCommand` | lib/rtppeer.cpp:534-562 | one command of the list is handled as the decoder function says |
| `RtpPeers.RtpPeer.ParseNext` | lib/rtppeer.cpp:509-562 | one turn of the loop: length, bounds test and command |
| `RtpPeers.RtpPeer.ParseList` | lib/rtppeer.cpp:507-571 | the whole loop over the list is the decoder function that ListRefines is about, and it ends |
| `RtpPeers.RtpPeer.ParseMidiPacket` | lib/rtppeer.cpp:470-571 | header, SSRC test, journal, section header and list of a MIDI packet: state, signals and exception are those of the function that PacketReceived, ForeignIsNotHeard and CutOffIsNotHeard are about |
| `IoBytes.BigEndianOfOctets` | include/rtpmidid/iobytes.hpp:160-188 | what a writer wrote of any width is read back as the same integer |
| `IoBytes.OctetsOfBigEndian` | include/rtpmidid/iobytes.hpp:264-294 | what a reader read is written as the same octets |
| `IoBytes.Reader.ReadUint64` | include/rtpmidid/iobytes.hpp:272-281 | eight octets from the cursor, big-endian, or an exception without moving it |
| `IoBytes.Reader.ReadUint32` | include/rtpmidid/iobytes.hpp:264-271 | four octets from the cursor, or an exception without moving it |
| `IoBytes.Reader.ReadUint16` | include/rtpmidid/iobytes.hpp:282-288 | two octets from the cursor, or an exception without moving it |
| `IoBytes.Reader.ReadStr0` | include/rtpmidid/iobytes.hpp:297-310 | the text up to the NUL or the end, and the cursor one past it |
| `IoBytes.Writer.WriteUint64` | include/rtpmidid/iobytes.hpp:177-188 | eight octets behind what was written before, or an exception that writes nothing |
| `IoBytes.Writer.WriteUint32` | include/rtpmidid/iobytes.hpp:170-176 | four octets behind what was written before, or an exception that writes nothing |
| `IoBytes.Writer.WriteUint16` | include/rtpmidid/iobytes.hpp:164-169 | two octets behind what was written before, or an exception that writes nothing |
| `IoBytes.Writer.WriteStr0` | include/rtpmidid/iobytes.hpp:190-196 | the text and its NUL, where the bound test counts the text only |
| `IoBytes.Writer.CopyFrom` | include/rtpmidid/iobytes.hpp:213-218 | the next octets of the other cursor, if both have room, and the other cursor stays |
| `SysexPath.FramingIsExact` | lib/rtppeer.cpp:648-696 | a payload leaves in one packet whose 4-bit or 12-bit length and whose body are its own, with the next sequence number and the time, if and only if it has at most 4094 octets and the cursor is at its start; everything else is refused and nothing is sent |
| `SysexPath.FramedReadsBack` | lib/rtppeer.cpp:498-505 | the header of that packet, as parse_midi reads it, gives the size and the place of the payload |
| `RtpPeers.RtpPeer.SendMidiData` | lib/rtppeer.cpp:648-696 | send_midi with its writer does what FramingIsExact is about |
| `SysexCutter.CutEncodesCommands` | src/aseq.cpp:676-711 | every fragment of a SysEx is one well-formed command of at most 258 octets |
| `SysexCutter.CutIsReceived` | src/aseq.cpp:676-711 | receiving all fragments in order gives one message, the SysEx |
| `SysexCutter.SysexToFragments.EvToMididata` | src/aseq.cpp:676-711 | the loop over the decode buffer emits exactly those fragments, for a SysEx of every length that the decode buffer holds whole |
| `SysexPath.SysexArrivesWhole` | src/aseq.cpp:676-711 | end to end: F0 d F7 of any length, cut, sent by one connected peer and received in order by the other, with foreign packets in between, raises exactly one message, F0 d F7 |
| `SysexPath.AllSegmentsReassemble` | lib/rtppeer.cpp:573-629 | any run of SysEx messages, each cut anywhere and completed or cancelled: exactly the completed ones that are whole or have data, in order, and nothing leaks from one into another |
| `SysexPath.PacketsReassemble` | lib/rtppeer.cpp:573-629 | the same, however the segments are spread over lists and packets |
| `SysexPath.PacketReceived` | lib/rtppeer.cpp:470-571 | a well-formed packet for this peer: its commands are received in turn, with the exception where the receiver has one, and nothing else of the peer changes but its decoder and the sequence number it has seen |
| `SysexPath.ForeignIsNotHeard` | lib/rtppeer.cpp:470-490 | a packet of another payload type, or from an SSRC that the peer is not bound to, raises nothing and changes nothing but the far sequence number |
| `PeerRules.CutOffIsNotHeard` | lib/rtppeer.cpp:470-505 | a packet that ends before its list does raises nothing and throws |
| `PeerRules.ControlPortHearsNoMidi` | lib/rtppeer.cpp:61-77 | MIDI that comes by the control port raises nothing |
| `PeerRules.JournalComesFirst` | lib/rtppeer.cpp:506-515 | what a journal says is raised before the list, and its end is reported back on the control port |
| `PeerRules.FeedbackIsReadIff` | lib/rtppeer.cpp:369-375 | what one side reports as received the other reads as 0, because four octets are written and the first two of them read: right if and only if it is 0 |
| `SysexPath.PacketReceivedAsMeantIff` | lib/rtppeer.cpp:470-571 | its messages, outcome and pending SysEx are those that its commands mean if and only if the condition of ListDecodedAsMeantIff holds of them |
| `SysexPath.CompleteListRaisesItsMessages` | lib/rtppeer.cpp:470-571 | a packet of commands that are no segments of a cut SysEx raises exactly these, in order, with statuses restored, if and only if none is 0xFD, begins with 0xF5 or is a SysEx that ends with F5 |
| `SysexPath.PacketsReceived` | lib/rtppeer.cpp:470-571 | any run of packets, with any foreign ones among them, is received list by list; where a command throws, the rest of its own packet is lost and no more |
| `SysexPath.SpreadDoesNotMatter` | lib/rtppeer.cpp:470-571 | where none throws this is the same as the one sequence of all their commands |
| `SysexPath.LostFirstSegment` | lib/rtppeer.cpp:544-629 | when the packet with the first segment of a SysEx is lost, every later segment is raised raw, in whatever packets they come, although none means anything |
| `SysexPath.PendingSysexRefusesTheRest` | lib/rtppeer.cpp:573-584 | while a SysEx is pending, a packet that goes on with anything but its next segment raises nothing, throws, and leaves it pending; a lost last fragment thus blocks the peer |
| `SysexPath.SendAllFrames` | lib/rtppeer.cpp:648-696 | payloads leave in order, one packet each, with the time at which each left and numbered without a gap |
| `PeerRules.OnlyConnectedSends` | lib/rtppeer.cpp:648-655 | MIDI is sent if and only if both ports are connected and the payload fits |
| `RtpPeers.RtpPeer.ParseCommandOk` | lib/rtppeer.cpp:129-172 | OK: fields, signals and exceptions are those of the step function that the session lemmas are about |
| `RtpPeers.RtpPeer.ParseCommandIn` | lib/rtppeer.cpp:174-211 | IN, with the OK that is sent back: fields, signals and exceptions are those of the step function that the session lemmas are about |
| `RtpPeers.RtpPeer.ParseCommandBy` | lib/rtppeer.cpp:213-248 | BY: fields, signals and exceptions are those of the step function that the session lemmas are about |
| `RtpPeers.RtpPeer.ParseCommandNo` | lib/rtppeer.cpp:250-270 | NO: fields, signals and exceptions are those of the step function that the session lemmas are about |
| `RtpPeers.RtpPeer.ParseCommandCk` | lib/rtppeer.cpp:272-339 | CK, with its answer and its latency: fields, signals and exceptions are those of the step function that the session lemmas are about |
| `RtpPeers.RtpPeer.SendCk` | lib/rtppeer.cpp:341-367 | send_ck0 is the step that the session lemmas are about |
| `PeerRules.OkConnectsIff` | lib/rtppeer.cpp:129-172 | an OK sets the bit of its port, and that is raised, if and only if it is of protocol 2 and answers this peer's own invitation while a port is missing |
| `PeerRules.InIsAnswered` | lib/rtppeer.cpp:174-211 | an IN binds the peer to its sender and is answered on its port by an OK with the same initiator, this peer's SSRC and name |
| `PeerRules.InvitationIntroduces` | lib/rtppeer.cpp:743-762 | the packets of an invitation and its answer tell either side the other's name, SSRC and initiator |
| `PeerRules.ByDisconnectsIff` | lib/rtppeer.cpp:213-248 | a BY takes exactly the bit of its port if and only if it is of protocol 2 and from the SSRC that the peer is bound to; the disconnection is raised if and only if no bit is left |
| `PeerRules.NoDisconnectsIff` | lib/rtppeer.cpp:250-270 | a NO takes exactly the bit of its port and is raised, whoever sent it |
| `PeerRules.StrangerSpoilsInvitationIff` | lib/rtppeer.cpp:213-270 | after a BY or a NO the awaited OK is refused if and only if these named another initiator |
| `PeerRules.AskSendsClock` | lib/rtppeer.cpp:341-367 | send_ck0 sends one CK of count 0 with this peer's SSRC and time, on the MIDI port |
| `PeerRules.ClockIsAnswered` | lib/rtppeer.cpp:272-339 | each count is answered on the port it came by, with this peer's SSRC, the stamps that came and its own, and the latency is the time since the right stamp |
| `RtpPeers.RtpPeer.SendGoodbyeTo` | lib/rtppeer.cpp:698-726 | send_goodbye is that step: the packet, the port bit, and the signal when no bit is left |
| `RtpPeers.RtpPeer.DisconnectPeer` | lib/rtppeer.cpp:860-868 | disconnect says goodbye on each connected port and resets |
| `PeerRules.GoodbyeSays` | lib/rtppeer.cpp:698-726 | a goodbye is one BY on its port with this peer's initiator and SSRC; exactly that bit goes, and the disconnection is raised if none is left |
| `PeerRules.DisconnectSays` | lib/rtppeer.cpp:860-868 | one BY on each connected port, MIDI first, one signal if there was a connection, and nobody is known any more |
| `PeerRules.DisconnectedIsDeaf` | lib/rtppeer.cpp:860-868 | after that MIDI of the side it was connected to is not heard |
| `RtpPeers.RtpPeer.ConnectToPort` | lib/rtppeer.cpp:743-762 | connect_to sends one IN with this peer's initiator, SSRC and name |
| `RtpPeers.RtpPeer.ResetPeer` | lib/rtppeer.cpp:54-59 | reset forgets the other side |
| `RtpPeers.RtpPeer.OnDataReady` | lib/rtppeer.cpp:61-127 | every packet goes to the right parser: commands, feedback, MIDI on the MIDI port |
| `RtpPeers.KeepsValid` | lib/rtppeer.cpp:91-127 | every command packet leaves the MIDI decoder sound |
| `Session.RunKeeps` | lib/rtppeer.cpp:129-270 | two peers over a network that loses, duplicates and reorders: the invariant holds after every run |
| `Session.NextKeeps` | lib/rtppeer.cpp:61-127 | and is kept by each single move of either side |
| `Session.ConnectedSidesKnowEachOther` | lib/rtppeer.cpp:129-248 | in every reachable state a side with a port bit has the other's SSRC, and its bit for a port means that the acceptor has processed an IN there |
| `Session.ConnectedSidesHearEachOther` | lib/rtppeer.cpp:484-490 | when both are connected, the other side makes of a list that one sends what it means if and only if the condition of ListDecodedAsMeantIff holds; commands that are no segments of a cut SysEx are all raised, in order, if and only if the decoder knows them all |
| `Session.HandshakeConnects` | lib/rtppeer.cpp:129-211 | the state with both sides connected is reachable, with the ports in either order |
| `Session.GoodbyeDisconnects` | lib/rtppeer.cpp:213-248 | a run in which either side leaves after a handshake and its two BYs arrive in either order: both sides end up not connected |
| `Session.LatencyIsElapsedTime` | lib/rtppeer.cpp:272-339 | every latency that a reachable side computes is the time elapsed on its own clock since it sent or answered; the unsigned subtraction does not wrap and the other clock does not matter |
| `Session.ClockIsMeasured` | lib/rtppeer.cpp:272-367 | such measurements happen: a CK0 whose answer arrives leads to one |
| `Session.ClockChainIsShort` | lib/rtppeer.cpp:272-339 | one delivery of a CK of count 0 or 1 causes exactly one CK with the next count, of count 2 none |
| `RtpServers.RunKeeps` | lib/rtpserver.cpp:84-206 | for every interleaving of packets and timers, with clients whose initiators and SSRCs are distinct: at most one peer per initiator, bound to its client's SSRC, with some port bit; and over the whole run an id that was given and is not listed is never listed again |
| `RtpServers.HandleKeeps` | lib/rtpserver.cpp:84-206 | and each single packet or timer keeps it |
| `RtpServers.InvitationsCommute` | lib/rtpserver.cpp:146-180 | IN on both ports gives the same peers in either order, with that client's one connected |
| `ServerRules.ByesRemovePeer` | lib/rtppeer.cpp:213-248 | when a client says BY on both ports, in either order, its peer goes and all others stay as they are |
| `ServerRules.PacketChangesItsPeer` | lib/rtpserver.cpp:146-163 | a packet for a listed peer changes this peer and no other, and takes it off the list only if it drops it |
| `ServerRules.FirstTimerDropsIff` | lib/rtpserverpeer.cpp:48-69 | the first timer of an id drops its peer if and only if this has its control port only; all others stay |
| `ServerRules.CkTimerDrops` | lib/rtpserverpeer.cpp:87-93 | the clock timer of an id drops its peer in any case; all others stay |
| `ServerRules.SessionPacketIsFor` | lib/rtpserver.cpp:84-107 | IN, OK and NO go to the peer with the initiator that they name, BY to the one with the sender's SSRC |
| `ServerRules.ClockPacketIsFor` | lib/rtpserver.cpp:108-114 | CK goes to the peer with the sender's SSRC |
| `ServerRules.FeedbackIsFor` | lib/rtpserver.cpp:108-114 | and so does feedback |
| `ServerRules.MidiIsFor` | lib/rtpserver.cpp:84-126 | MIDI goes to the peer with the sender's SSRC, by the MIDI port only, unless its sequence number reads as one of the six commands; where it goes then |
| `ServerRules.MidiReachesItsPeerIff` | lib/rtpserver.cpp:84-126 | a client's packet reaches its peer if and only if its sequence number is none of these, or its SSRC happens to be its initiator; otherwise it is dropped when nobody has that initiator |
| `RtpServers.RtpServer.FindPeerByPacket` | lib/rtpserver.cpp:84-126 | the search finds the first peer by initiator or by SSRC, by the kind of the packet |
| `RtpServers.RtpServer.FindPeerBySsrc` | lib/rtpserver.cpp:128-135 | the first peer with the SSRC, or none |
| `RtpServers.RtpServer.FindPeerByInitiatorId` | lib/rtpserver.cpp:137-144 | the first peer with the initiator, or none |
| `RtpServers.RtpServer.FindPeerDataById` | lib/rtpserver.cpp:182-189 | the peer with the id, or none |
| `RtpServers.RtpServer.RemovePeer` | lib/rtpserver.cpp:197-206 | the one peer with the id goes, the others stay in order |
| `RtpServers.RtpServer.OnDataReady` | lib/rtpserver.cpp:146-163 | a packet goes to its peer, or creates one, or is dropped: the step that RunKeeps is about |
| `RtpServers.RtpServer.CreatePeerFrom` | lib/rtpserver.cpp:176-180 | a new peer reads its packet; when that throws it is not listed |
| `RtpServers.RtpServer.StatusChanges` | lib/rtpserverpeer.cpp:119-129 | a status that means disconnection takes the peer off the list |
| `RtpServers.RtpServer.FirstTimerFired` | lib/rtpserverpeer.cpp:48-69 | a peer that has not both ports in time is disconnected and dropped |
| `RtpServers.RtpServer.CkTimerFired` | lib/rtpserverpeer.cpp:87-93 | a peer that is silent is disconnected and dropped |
| `RtpClients.RtpClient.HandleEvent` | lib/rtpclient_statemachine.cpp:37-223 | every event starts a chain of actions that ends (a well-founded order on endpoints, addresses, state and slots), stops in a waiting state with its timer armed and its slot connected, and brings no endpoint or address back; the logs of the pass over the endpoints and of the clock requests are kept (six short requests on each connection before the first long wait, none after it, while ck_count wraps); as long as no MIDI-port attempt has ended by its timer, AllConnected is entered only with status CONNECTED; and where packets leave, and of the ports some do not open, exactly the state, the address, the status and the packets that the chain comes to |
| `RtpClients.RtpClient.StateResolveNextIpPort` | lib/rtpclient.cpp:133-162 | resolves, or takes the next address of the list; its iterator is never moved past the end |
| `RtpClients.RtpClient.MoveOn` | lib/rtpclient.cpp:133-150 | the exact effect of that on the list, its iterator and the pass |
| `RtpClients.RtpClient.StatePrepareNextDns` | lib/rtpclient.cpp:122-131 | takes the endpoint added last, or gives up |
| `RtpClients.RtpClient.StateConnectControl` | lib/rtpclient.cpp:164-203 | where the port opens the invitation on the control port is the first packet that leaves, and the client waits with its slot and the timer of that port; where it does not open the next address is on, or at the last one the pass ends |
| `RtpClients.RtpClient.StateConnectMidi` | lib/rtpclient.cpp:205-244 | the same on the MIDI port; where that does not open the control port is left and the next address is on |
| `RtpClients.RtpClient.StateDisconnectControl` | lib/rtpclient.cpp:246-251 | a goodbye on the control port, then the next address; the goodbye may lead through a whole other chain first, and the event that follows is still handled |
| `RtpClients.RtpClient.StateAllConnected` | lib/rtpclient.cpp:253-261 | begins the clock requests anew: the one that is sent at once is the first |
| `RtpClients.RtpClient.StateSendCkShort` | lib/rtpclient.cpp:263-279 | one short-period request more leaves |
| `RtpClients.RtpClient.StateSendCkLong` | lib/rtpclient.cpp:286-298 | one long-period request leaves; when sending it fails the timer and the slot are set all the same |
| `RtpClients.RtpClient.StateDisconnectBecauseCkTimeout` | lib/rtpclient.cpp:306-310 | says goodbye on the connected ports; as long as no MIDI-port attempt has timed out, and where packets leave, it then invites the same address again and waits on its control port, or goes on to the next whose port opens |
| `RtpClients.RtpClient.StateError` | lib/rtpclient.cpp:312-319 | says goodbye on the connected ports and ends with the timer armed that starts again, the search as it was |
| `RtpClients.RtpClient.StateTryConnectToAllKnownDns` | lib/rtpclient.cpp:321-324 | a new pass over all known endpoints |
| `RtpClients.RtpClient.Raise` | lib/rtpclient.cpp:178-192 | a status calls the slots of both ports that are there, and each leaves before it raises its event; a single slot that hears its good status leads to the next state |
| `RtpClients.RtpClient.SendGoodbyeTo` | lib/rtppeer.cpp:698-726 | send_goodbye with all that its signals lead to: the goodbye leaves first, and when the signals lead nowhere the port bit is gone |
| `RtpClients.RtpClient.ConnectAll` | lib/rtpclient.cpp:111-114 | starts the machine once; the pass covers all known endpoints |
| `RtpClients.RtpClient.AddServerAddress` | lib/rtpclient.cpp:95-100 | known and pending grow and the machine is started; where the resolver answers and packets leave, it has invited the first address of the answer whose port opens |
| `RtpClients.RtpClient.AddServerAddresses` | lib/rtpclient.cpp:102-109 | the same for several, in one pass over all known endpoints |
| `RtpClients.RtpClient.TimerFired` | lib/rtpclient.cpp:194-241 | whichever timer fires, the chain settles; the control timeout moves on, the clock timeout goes back to the control port of the same address, the pause between requests ends with the next request, and the reconnect timer begins a new pass; where the list at hand is at its end and no endpoint is left, that is the end in Error |
| `RtpClients.RtpClient.OkArrives` | lib/rtppeer.cpp:129-172 | whatever status an OK raises, the chain settles; the awaited one leads to the invitation on the MIDI port, or to the next address where that does not open, and then to the first clock request |
| `RtpClients.RtpClient.InArrives` | lib/rtppeer.cpp:174-211 | an IN that reaches a client is answered on its port and counts for it like an OK |
| `RtpClients.RtpClient.NoArrives` | lib/rtppeer.cpp:250-270 | a NO on the port that is asked ends the attempt: the next address is invited, after a goodbye if the control port had answered |
| `RtpClients.RtpClient.ByArrives` | lib/rtppeer.cpp:213-248 | a BY takes the bit of its port, and does nothing else unless none is left; then the attempt on the MIDI port ends |
| `RtpClients.RtpClient.CkArrives` | lib/rtpclient.cpp:263-298 | after an answer: short requests until six, then long ones; an answer that comes when none is awaited leads to Error, with the reconnect timer armed and the address list as it was |
| `RtpClients.CleanPassTriesAll` | lib/rtpclient.cpp:122-162 | a pass that began with no list left over and ends in Error has resolved every known endpoint, last-added first, and tried every address of each once, in the resolver's order |
| `RtpClients.LeftOverListHidesAnEndpoint` | lib/rtpclient.cpp:133-144 | a finished pass has left an endpoint out, the one added last, if and only if an address list was left over when it began |
| `RtpClients.ReachesAnyAddress` | lib/rtpclient.cpp:95-279 | a run from the constructor: an endpoint resolves to any list of addresses and the first n fail, each by a port that does not open, silence or rejection, on the control port or then on the MIDI port; if the next one answers the client is CONNECTED to it, has tried just these, in order, and has handed out exactly the invitations, goodbyes and the one clock request that this calls for |
| `RtpClients.KeepsTime` | lib/rtpclient.cpp:253-304 | a run on from there with all answers in time: six requests after short pauses, then one after each long pause, and nothing else leaves |
| `RtpClients.LateAnswerLeavesList` | lib/rtpclient.cpp:263-324 | a run on from there: the clock request times out, its answer comes while the same address is asked again, and the next pass begins with the old list left over; if that address was the last, the pass is over at once, in Error, with nothing resolved and nothing tried |
| `RtpClients.ResolveKeepsLog` | lib/rtpclient.cpp:133-144 | a resolved endpoint: its addresses follow those tried before |
| `RtpClients.StaleKeepsLog` | lib/rtpclient.cpp:141-144 | with a list left over, its rest is tried in place of the endpoint's own addresses |
| `RtpClients.NextKeepsLog` | lib/rtpclient.cpp:141-162 | the next address is tried, or the list is done with |
| `RtpClients.TimerIsReady` | lib/rtpclient.cpp:194-241 | from every waiting state, what the armed timer raises can be handled |
| `RtpClients.CkIsReady` | lib/rtpclient.cpp:263-298 | from every waiting state a clock answer leads to one of three states, and the sixth short request is the last |
| `Signals.CalledExactly` | include/rtpmidid/signal.hpp:98-109 | dispatch calls exactly the slots that were there when it began and are connected at their turn, whatever the callbacks connect, disconnect, move and raise, to any depth |
| `Signals.CalledInOrder` | include/rtpmidid/signal.hpp:98-109 | in the order of their ids, each once, and none that was connected meanwhile |
| `Signals.TakenAwayIsNotCalled` | include/rtpmidid/signal.hpp:98-109 | a slot that any earlier callback took away is not called |
| `Signals.DispatchKeepsOwners` | include/rtpmidid/signal.hpp:163-182 | at every turn every live slot is owned by exactly one connection, and every connection that has an id owns a live slot, in nested calls too |
| `Signals.StepKeepsOwners` | include/rtpmidid/signal.hpp:145-182 | each connect, disconnect, move and nested call keeps that |
| `Signals.Signal.Dispatch` | include/rtpmidid/signal.hpp:98-109 | operator() over the shared copy calls just those slots: what is carried out at its level are all commands of their scripts, in order, whatever nested raises carry out in between, and signal and connections afterwards are what all that was carried out makes of them |
| `Signals.Signal.Execute` | include/rtpmidid/signal.hpp:58-109 | a command does what it is, and a raise within a callback carries out the scripts of the slots that it calls |
| `Signals.ConnectingDoes` | include/rtpmidid/signal.hpp:58-67 | a new slot with its callback, owned by the target, whose old slot is gone; all others stay |
| `Signals.DisconnectingDoes` | include/rtpmidid/signal.hpp:69-74 | one slot goes, all others stay |
| `Signals.MovingDoes` | include/rtpmidid/signal.hpp:163-174 | the slot changes hands, the target's own goes, all others stay |
| `Signals.Signal.ConnectCallback` | include/rtpmidid/signal.hpp:58-67 | a new slot with a new id, owned by the connection that is returned |
| `Signals.Connection.MoveFrom` | include/rtpmidid/signal.hpp:163-174 | gives up its own slot, takes the other's, and the signal knows the new owner |
| `Signals.Connection.Disconnect` | include/rtpmidid/signal.hpp:176-182 | its slot goes, it owns nothing |
| `Signals.Signal.DisconnectAll` | include/rtpmidid/signal.hpp:76-87 | ends, with no slot and no connection left |
| `Pollers.NeverEarlyIff` | lib/poller.cpp:194-198 | for every timer: it is never seen expired before its milliseconds are over if and only if these, and one more, fit a 32-bit int |
| `Pollers.SeenExpired` | lib/poller.cpp:194-198 | and then it is seen expired as soon as they are over, for 2^31 milliseconds |
| `Pollers.NoneFiresEarly` | lib/poller.cpp:200-216 | in every reachable state no such timer has fired before its time |
| `Pollers.FireKeeps` | lib/poller.cpp:200-209 | firing: the timer has the least deadline of the list, is expired, was not removed, and has not fired before |
| `Pollers.AddRuns` | lib/poller.cpp:128-155 | adding keeps the list sorted and the ids new, and loses no timer |
| `Pollers.RemoveKeeps` | lib/poller.cpp:173-187 | removing takes away the one timer and keeps the invariant |
| `Pollers.RemovedForGood` | lib/poller.cpp:173-187 | a timer that was removed is never in the list again and never fires, after whatever calls, loops and waits come later; every one of these is proved to follow what was before |
| `Pollers.FinishKeeps` | lib/poller.cpp:206-216 | what has fired is removed |
| `Pollers.Poller.AddTimerEvent` | lib/poller.cpp:128-155 | the list gains exactly the new timer, with a new id and the deadline one millisecond late |
| `Pollers.Poller.RemoveTimer` | lib/poller.cpp:173-187 | exactly the timers with the id go |
| `Pollers.Poller.ArmAt` | lib/poller.cpp:286-295 | a handle that is armed again gives up its old timer after the new one is there |
| `Pollers.Poller.DisableAt` | lib/poller.cpp:297-303 | the timer of the handle is gone |
| `Pollers.Poller.MoveTo` | lib/poller.cpp:286-295 | moving a handle gives up the timer of the target |
| `Pollers.Poller.Fire` | lib/poller.cpp:206-216 | one round fires the first timer and logs it once: its callback runs, all commands in order, with their effect on timers, handles and put-off calls; then the timer is gone |
| `Pollers.Poller.Call` | lib/poller.cpp:206-216 | a callback carries out its commands, all of them and in order |
| `Pollers.Poller.Execute` | lib/poller.cpp:128-303 | what one command does to clock, timers, ids, handles and put-off calls |
| `Pollers.EachIsDone` | lib/poller.cpp:206-216 | each command of a script takes effect at its place |
| `Pollers.ArmingDoes` | lib/poller.cpp:128-155 | arming: a new timer with a new id at the handle, whose old timer is gone; all others stay |
| `Pollers.DisablingDoes` | lib/poller.cpp:297-303 | disabling: the timer of the handle is gone, all others stay |
| `Pollers.MovingDoes` | lib/poller.cpp:286-295 | moving: the id changes hands and the target's own timer is gone |
| `Pollers.Poller.RunExpiredTimerEvents` | lib/poller.cpp:200-216 | ends, although callbacks add timers, with nothing expired at the head; the firings that it adds to the log are carried out one after the other, each after a look at the clock, and what they put off is put off in that order; none is of a timer that had been removed, and no id is given twice |
| `Pollers.Poller.RunCallLaterEvents` | lib/poller.cpp:218-227 | the batches run everything in the order of a plain queue, with all that it does to the timers, and end with none left; nothing fires meanwhile and nothing is forgotten |
| `Pollers.Poller.Wait` | lib/poller.cpp:229-274 | wait() without descriptors: what was put off before runs first and in order, then the expired timers fire, then what these put off runs; what all of it leaves behind, command by command |
| `MidiRouters.RunKeepsGood` | src/midirouter.cpp:88-171 | for every run in which edges are made and undone in both directions, and peers added and removed: edges lead to live peers, none is doubled, and every live peer's connected events less its disconnected ones are its edges in and out |
| `MidiRouters.RemoveKeepsGoodIff` | src/midirouter.cpp:88-107 | after removing a peer all counts are right if and only if every other peer that it sent to sends to somebody itself |
| `MidiRouters.RemoveBalancesIff` | src/midirouter.cpp:93-102 | and so for each single peer |
| `MidiRouters.RemoveCanUnbalance` | src/midirouter.cpp:93-102 | a graph of two peers and one edge for which they are not |
| `MidiRouters.RunKeepsNamed` | src/midirouter.cpp:88-171 | over all such runs the connections that a peer was told of another, less the disconnections, are the edges between these two: every event names the right peer |
| `MidiRouters.RemoveNamesIff` | src/midirouter.cpp:88-107 | after removing a peer this holds if and only if every other peer that it sent to sends to somebody itself |
| `MidiRouters.ConnectKeepsGood` | src/midirouter.cpp:136-150 | a new edge keeps all counts right |
| `MidiRouters.DisconnectKeepsGood` | src/midirouter.cpp:152-171 | so does taking one away |
| `MidiRouters.RemoveIsIdempotent` | src/midirouter.cpp:88-107 | removing twice is removing once, removing an unknown peer does nothing |
| `MidiRouters.OperationsKeepClosed` | src/midirouter.cpp:88-171 | every send_to id is that of a live peer |
| `MidiRouters.DeliveredOncePerEdge` | src/midirouter.cpp:109-134 | a packet reaches every peer once for each edge to it, and is counted |
| `MidiRouters.Router.AddPeer` | src/midirouter.cpp:30-55 | a new id for a new peer; a peer that has one keeps it and nothing happens, even when it has been removed |
| `MidiRouters.Router.RemovePeer` | src/midirouter.cpp:88-107 | the loops over peers, in any order, come to just that effect |
| `MidiRouters.Router.ConnectPeers` | src/midirouter.cpp:136-150 | the edge and both events |
| `MidiRouters.Router.DisconnectPeers` | src/midirouter.cpp:152-171 | the edge goes and both are told once |
| `MidiRouters.Router.SendMidi` | src/midirouter.cpp:109-134 | counters and deliveries are those of DeliveredOncePerEdge |
| `MidiRouters.Router.GetPeerById` | src/midirouter.cpp:57-63 | the peer with that id, or none |
| `MidiNormalizers.NothingIsLost` | src/midi_normalizer.cpp:36-74 | for every stream and state the packets followed by the buffer are the input |
| `MidiNormalizers.CuttingDoesNotMatter` | src/midi_normalizer.cpp:36-46 | for every stream the output does not depend on how it is cut into packets |
| `MidiNormalizers.MessagesAreFramed` | src/midi_normalizer.cpp:48-99 | a stream of channel messages with status and SysEx comes out as exactly these messages, and the state ends empty |
| `MidiNormalizers.CommandsAreFramed` | src/midi_normalizer.cpp:48-99 | a stream of channel messages and SysEx, as the grammar of MIDI lists has them, comes out as exactly these messages |
| `MidiNormalizers.CommandIsMessageIff` | src/midi_normalizer.cpp:76-99 | of all commands of that grammar the channel messages and whole SysEx are messages here, and no others |
| `MidiNormalizers.FramedIffNothingKept` | src/midi_normalizer.cpp:52-55 | where a command is expected, the next message comes out unchanged if and only if nothing is kept in the buffer |
| `MidiNormalizers.UnknownIsKept` | src/midi_normalizer.cpp:52-55 | octets that are not known stay in the buffer |
| `MidiNormalizers.UnknownOctetsBlock` | src/midi_normalizer.cpp:64-73 | unknown octets before a status block the port, so that nothing comes out whatever follows, if and only if they and the status together reach the size of its message; a SysEx is never blocked |
| `MidiNormalizers.MidiNormalizer.NormalizeStream` | src/midi_normalizer.cpp:36-46 | the loop with its buffer computes the function that those lemmas are about |
| `MidiNormalizers.MidiNormalizer.ParseMidiByte` | src/midi_normalizer.cpp:48-74 | one octet of it |
| `StateMachineGenerators.SwitchDoesWhatIsListed` | scripts/statemachine_to_cpp.py:140-157 | the nested switch that is written, run with the meaning of C++ on any collected state and any event, gives the listed target, or Error if none is listed |
| `StateMachineGenerators.CodeIsLegalIff` | scripts/statemachine_to_cpp.py:146-157 | no switch has two equal labels if and only if no transition is repeated |
| `StateMachineGenerators.StatesAreDistinct` | scripts/statemachine_to_cpp.py:72-89 | Error is the first state and no state is there twice |
| `StateMachineGenerators.StatesAreComplete` | scripts/statemachine_to_cpp.py:84-90 | every source and target is a state |
| `StateMachineGenerators.StatesAreEnds` | scripts/statemachine_to_cpp.py:84-90 | and nothing else is |
| `StateMachineGenerators.EventsAreComplete` | scripts/statemachine_to_cpp.py:84-86 | the events are those of the transitions, each once |
| `StateMachineGenerators.ParseInvertsWriting` | scripts/statemachine_to_cpp.py:66-91 | a line written as a transition is read as that transition, whatever follows the event |
| `StateMachineGenerators.FileIsReadBack` | scripts/statemachine_to_cpp.py:69-101 | a file that lists transitions, one a line, indented and guarded as it may be, is read as just these, in their order |
| `StateMachineGenerators.ParseStateMachine` | scripts/statemachine_to_cpp.py:69-101 | the loop with its growing lists: fails exactly when a line is wrong, else gives the transitions in order with the states and events that those lemmas are about |
| `StateMachineGenerators.GenerateSwitch` | scripts/statemachine_to_cpp.py:139-158 | the nested loops write the switch that those lemmas are about |
| `StateMachineGenerators.ClientSwitchIsGenerated` | lib/rtpclient_statemachine.cpp:37-177 | the client's handle_event is the switch generated from the list in lib/STATEMACHINES.md, on every state and event |
| `StateMachineGenerators.FromIsTransition` | lib/STATEMACHINES.md:33-61 | a state's lines say all that handle_event does in that state |

## Left out

- Reader memory: a reader's buffer holds one octet more than the packet, because the SysEx scan and the end of a string look one past it; what that octet is, is open.
- MidiList.NextLength: a data octet at the place of a command without running status makes the length -1; the decoder function throws there, where the C++ goes on with a negative length. Well-formed lists never come to it.
- RtpPeers.RtpPeer.ParseNext: throws for that length -1, as MidiList.NextLength does.
- RtpPeers.RtpPeer.ParseList: inherits this exception from ParseNext.
- MidiList.ListRefines: of the octets outside the grammar only an F4 without its closing F7 is described (MidiList.UnendedCommonSwallows); the decoder is defined on all others, too, but nothing is said about what they mean.
- MidiList.SystemLength: the SysEx scan begins two octets on without a bound test, so that a segment has at least two octets by precondition.
- IoBytes.Writer.WriteStr0: excludes a text that just fills the buffer: the source's bound test leaves out the NUL, which is then written behind the end.
- RtpPeers.RtpPeer.ParseCommandIn: excludes for that reason a local name of exactly 112 octets, which just fills the answer's 128 (a longer one throws, as in the source); the SSRC and the name of the other side come from the packet, the address of the sender is not kept.
- RtpPeers.RtpPeer.OnDataReady: excludes the same length of the local name.
- RtpPeers.RtpPeer.ConnectToPort: excludes for the same reason a local name of exactly 1484 octets, which just fills the packet's 1500.
- RtpPeers.RtpPeer.ParseSysex: its length is not cut to 16 bits as by the cast of lib/rtppeer.cpp:545; packets are received into 1500 octets (lib/udppeer.cpp:84).
- RtpPeers.RtpPeer.ParseMidiPacket: what the recovery journal raises is given from outside, because the source marks its journal parser as work in progress.
- SysexCutter.SysexToFragments.EvToMididata: the source's decode buffer has 65536 octets (src/aseq.cpp:630); that the ALSA decoder returns a whole F0 ... F7 into it, and what it does with a longer one, is not modelled.
- Status codes, names of peers and endpoints, and packets are values; log lines, statistics and timestamps for humans are not modelled.
- Sockets, name resolution, Avahi and ALSA: whether a port opens, a packet leaves and what a name resolves to is open, call by call.
- Session: two sides only; a third party's packets, which carry another SSRC, do not appear.
- RtpServers: the peers of the server are values in a sequence, updated in place of one another; the signals that they pass on to users of the server are not kept.
- RtpServers.InvitationsCommute: the number drawn for the SSRC of a new peer is the same in both orders.
- RtpClients.RtpClient: of the peer only the port bits and the two status slots are kept; which packets are valid answers is in RtpPeers. What a chain leaves behind is stated for all chains; which packets it hands out in all is stated where packets leave, and of all others only which leaves first. That a packet is for the address at hand is not modelled.
- RtpClients.RtpClient.Raise: that the older slot is called first is in the body; the contract says what both calls together lead to.
- RtpClients.RtpClient.TimerFired: when a MIDI-port attempt ends by its timer the listener of the control port is disconnected instead of its own; from then on nothing is claimed about the status with which AllConnected is entered, nor that a waiting client has its slot.
- RtpClients.RtpClient.HandleEvent: the order of addresses is stated over the whole pass; an address may be given up at once when the listener left behind by a MIDI-port timeout hears the goodbye.
- Signals.Signal.Dispatch: how deep callbacks may raise the signal from within is bounded, by any number; one that raises it for ever never returns in the source. The connections belong to one signal; destroying a connection is disconnecting it.
- Signals.Connection.MoveFrom: requires another connection that owns a slot; from an empty one, or from itself, the source calls replace_connection_ptr on a null pointer (include/rtpmidid/signal.hpp:163-174).
- Pollers.Poller.Call: a callback is a finite script, so that one that arms itself again for ever is not covered; the wait in epoll_wait and the descriptors are left out, and ids are not cut to 32 bits.
- Pollers.Poller.Wait: that each timer that fires is the first of the list at that moment is said of every firing in the log by the invariant (Pollers.FireKeeps), not by this contract.
- Pollers.Poller.SortByDeadline: is known to its callers by sortedness and contents only, as std::sort is.
- MidiRouters.Router.DisconnectPeers: the source erases from the vector that it walks, which is undefined when the element is found; the meant effect is modelled, once for both sides. Doubled edges are all taken away with one pair of events.
- MidiRouters.Router.Deliver: what a peer does with a packet, which may come back to the router, is not modelled; ids are not cut to 32 bits.
- StateMachineGenerators.ParseLine: letters are those of ASCII; a name is a word, and the text is given as its lines.
- StateMachineGenerators.GenerateSwitch: the lines of the code are symbols, not text; the header, the dispatch to the actions and the to_string functions are left out, as is finding the machines in a file.
- StateMachineGenerators.SeekEvent: the label `default:;` is last and does nothing, so a search without success ends in the same place.
- lib/stats.cpp, lib/rtpmidipacket.cpp, settings, control socket, factories and command line: sums over samples, field access and the reading of options. None of it decides whether a packet or a timer takes effect, and no property above depends on it.
