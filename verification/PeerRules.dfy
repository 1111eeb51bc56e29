/**
  * What single packets do to a peer, said apart from how it handles them: which commands
  * count and which do not, what its own packets say, and which packets it does not hear.
  */
module PeerRules {
  import opened Wrappers
  import opened IoBytes
  import opened MidiList
  import opened RtpPeers
  import opened SysexPath

  // ----- OK and IN

  /** An OK that answers this peer's invitation, while there still is a port to connect. */
  predicate AnswersMe(p: Peer, buf: seq<byte>)
    requires |buf| >= 16
  {
    p.status != CONNECTED && U32(buf, 4) == 2 && U32(buf, 8) == p.initiatorId
  }

  /** An OK sets the bit of its port, and that is raised, if and only if it answers this peer's invitation. */
  lemma {:induction false} OkConnectsIff(p: Peer, buf: seq<byte>, port: Port)
    requires |buf| >= 16
    ensures var s := OnOk(p, buf, port);
            && (forall q :: HasBit(s.peer.status, q) <==> HasBit(p.status, q) || (q == port && AnswersMe(p, buf)))
            && s.raised == (if AnswersMe(p, buf) then [StatusChange(s.peer.status)] else [])
            && (s.outcome.Pass? <==> AnswersMe(p, buf) || p.status == CONNECTED)
            && (s.peer.remoteSsrc == if p.status == CONNECTED then p.remoteSsrc else U32(buf, 12))
            && s.peer.initiatorId == p.initiatorId
  {
    hide U32, Str0At;
    assert p.status == CONNECTED ==> HasBit(p.status, port);
  }

  /**
    * An IN of protocol 2, whatever came before, binds the peer to its sender, and is
    * answered on the same port by an OK that names the same initiator and this peer's SSRC.
    */
  lemma {:induction false} InIsAnswered(p: Peer, buf: seq<byte>, port: Port)
    requires |buf| >= 16 && U32(buf, 4) == 2 && |p.localName| <= 111
    ensures var s := OnIn(p, buf, port);
            && s.outcome == Pass && s.peer.initiatorId == U32(buf, 8) && s.peer.remoteSsrc == U32(buf, 12)
            && (forall q :: HasBit(s.peer.status, q) <==> HasBit(p.status, q) || q == port)
            && |s.raised| == 2 && s.raised[1] == StatusChange(s.peer.status)
            && s.raised[0].SendEvent? && s.raised[0].port == port
            && var answer := s.raised[0].packet;
            && |answer| == 17 + |p.localName| && IsCommand(answer) && U16(answer, 2) == OK && U32(answer, 4) == 2
            && U32(answer, 8) == U32(buf, 8) && U32(answer, 12) == p.localSsrc
            && answer[16..] == p.localName + [0]
  {
    var tail := p.localName + [0];
    SessionReadsBack(OK, U32(buf, 8), p.localSsrc, tail);
    assert SessionPacket(OK, U32(buf, 8), p.localSsrc) + p.localName + [0]
        == SessionPacket(OK, U32(buf, 8), p.localSsrc) + tail;
    hide SessionPacket, U16, U32, Str0At;
  }

  lemma {:induction false} InOfOtherProtocol(p: Peer, buf: seq<byte>, port: Port)
    requires |buf| >= 16 && U32(buf, 4) != 2
    ensures var s := OnIn(p, buf, port); s.outcome == Fail(BadProtocol) && s.raised == [] && s.peer.status == p.status
  {
    hide U32, Str0At;
  }

  predicate IsText(s: seq<byte>) {
    forall i | 0 <= i < |s| :: s[i] != 0
  }

  lemma {:induction false} NameIsRead(command: uint16, id: uint32, ssrc: uint32, name: seq<byte>)
    requires IsText(name)
    ensures Str0At(SessionPacket(command, id, ssrc) + name + [0], 16) == name
  {
    var buf := SessionPacket(command, id, ssrc) + name + [0];
    hide SessionPacket;
    assert buf[16..16 + |name|] == name;
    Str0IsPrefix(buf, 16, 16 + |name|);
  }

  /** The packet of an invitation, and that of its answer, tell either side the name, the SSRC and the initiator. */
  lemma {:induction false} InvitationIntroduces(a: Peer, b: Peer, port: Port)
    requires IsText(a.localName) && IsText(b.localName) && |a.localName| <= 1483 && |b.localName| <= 111
    requires a.status != CONNECTED
    ensures var asked := ConnectTo(a, port).raised;
            && |asked| == 1 && asked[0].SendEvent? && asked[0].port == port && |asked[0].packet| >= 16
            && var heard := OnIn(b, asked[0].packet, port);
            && heard.peer.remoteName == a.localName && heard.peer.remoteSsrc == a.localSsrc
            && heard.peer.initiatorId == a.initiatorId
            && |heard.raised| == 2 && heard.raised[0].SendEvent? && |heard.raised[0].packet| >= 16
            && var back := OnOk(a, heard.raised[0].packet, port).peer;
            back.remoteName == b.localName && back.remoteSsrc == b.localSsrc && HasBit(back.status, port)
  {
    hide SessionPacket, U16, U32, Str0At;
    InviteSays(IN, a.initiatorId, a.localSsrc, a.localName);
    InviteSays(OK, a.initiatorId, b.localSsrc, b.localName);
  }

  lemma {:induction false} InviteSays(command: uint16, id: uint32, ssrc: uint32, name: seq<byte>)
    requires IsText(name)
    ensures var buf := SessionPacket(command, id, ssrc) + name + [0];
            && |buf| == 17 + |name| && U32(buf, 4) == 2 && U32(buf, 8) == id && U32(buf, 12) == ssrc
            && Str0At(buf, 16) == name
  {
    hide SessionPacket, U16, U32, Str0At;
    NameIsRead(command, id, ssrc, name);
    SessionReadsBack(command, id, ssrc, name + [0]);
    assert SessionPacket(command, id, ssrc) + name + [0] == SessionPacket(command, id, ssrc) + (name + [0]);
  }

  // ----- BY and NO

  /** A BY of protocol 2 from the connected side. */
  predicate LeavesMe(p: Peer, buf: seq<byte>)
    requires |buf| >= 16
  {
    U32(buf, 4) == 2 && U32(buf, 12) == p.remoteSsrc
  }

  /**
    * A BY takes the bit of its port, and of no other, if and only if it comes from the side
    * that this peer is bound to; the disconnection is raised if and only if no bit is left.
    */
  lemma {:induction false} ByDisconnectsIff(p: Peer, buf: seq<byte>, port: Port)
    requires |buf| >= 16
    ensures var s := OnBy(p, buf, port);
            && (forall q :: HasBit(s.peer.status, q) <==> HasBit(p.status, q) && !(q == port && LeavesMe(p, buf)))
            && var none := !HasBit(s.peer.status, MidiPort) && !HasBit(s.peer.status, ControlPort);
            && s.raised == (if LeavesMe(p, buf) && none then [StatusChange(DISCONNECTED_PEER_DISCONNECTED)] else [])
            && (s.outcome.Pass? <==> U32(buf, 4) == 2)
            && s.peer.remoteSsrc == p.remoteSsrc
  {
    hide U32;
  }

  /** A NO takes the bit of its port, whoever sent it, and is raised every time. */
  lemma {:induction false} NoDisconnectsIff(p: Peer, buf: seq<byte>, port: Port)
    requires |buf| >= 16
    ensures var s := OnNo(p, buf, port);
            && (forall q :: HasBit(s.peer.status, q) <==> HasBit(p.status, q) && !(q == port && U32(buf, 4) == 2))
            && s.raised == (if U32(buf, 4) == 2 then [StatusChange(DISCONNECTED_CONNECTION_REJECTED)] else [])
            && (s.outcome.Pass? <==> U32(buf, 4) == 2)
  {
    hide U32;
  }

  /**
    * BY and NO replace the initiator before anything is tested, so that the OK that this
    * peer waits for is refused from then on, if and only if they name another one.
    */
  lemma {:induction false} StrangerSpoilsInvitationIff(p: Peer, buf: seq<byte>, port: Port, answer: seq<byte>, at: Port)
    requires |buf| >= 16 && |answer| >= 16 && AnswersMe(p, answer)
    ensures OnOk(OnBy(p, buf, port).peer, answer, at).outcome == Fail(UnknownInitiator)
            <==> U32(buf, 8) != p.initiatorId
    ensures OnOk(OnNo(p, buf, port).peer, answer, at).outcome == Fail(UnknownInitiator)
            <==> U32(buf, 8) != p.initiatorId
  {
    hide U32, Str0At;
    ByDisconnectsIff(p, buf, port);
    NoDisconnectsIff(p, buf, port);
    hide OnOk;
    OkConnectsIff(OnBy(p, buf, port).peer, answer, at);
    OkConnectsIff(OnNo(p, buf, port).peer, answer, at);
  }

  // ----- the clock

  /** A clock packet, read. */
  datatype Clock = Clock(ssrc: uint32, count: byte, ck1: uint64, ck2: uint64, ck3: uint64)

  predicate IsClock(buf: seq<byte>, c: Clock) {
    && |buf| == 36 && IsCommand(buf) && U16(buf, 2) == CK && U32(buf, 4) == c.ssrc && buf[8] == c.count
    && U64(buf, 12) == c.ck1 && U64(buf, 20) == c.ck2 && U64(buf, 28) == c.ck3
  }

  lemma {:induction false} CkPacketIsClock(ssrc: uint32, count: byte, ck1: uint64, ck2: uint64, ck3: uint64)
    ensures IsClock(CkPacket(ssrc, count, ck1, ck2, ck3), Clock(ssrc, count, ck1, ck2, ck3))
  {
    CkReadsBack(ssrc, count, ck1, ck2, ck3);
    hide CkPacket, U16, U32, U64;
  }

  /** One packet leaves on the port, and it is this clock packet. */
  predicate SendsClock(s: Signal, port: Port, c: Clock) {
    s.SendEvent? && s.port == port && IsClock(s.packet, c)
  }

  lemma {:induction false} AskSendsClock(p: Peer, now: uint64)
    ensures var s := SendCk0(p, now);
            && |s.raised| == 1 && SendsClock(s.raised[0], MidiPort, Clock(p.localSsrc, 0, now, 0, 0))
            && s.outcome == Pass && s.peer == p.(waitingCk := true)
  {
    CkPacketIsClock(p.localSsrc, 0, now, 0, 0);
    hide CkPacket, IsClock;
  }

  /**
    * Count 0 is answered with count 1, on the port that it came by: this peer's SSRC, the
    * sender's time and this peer's own. Count 1 is answered with count 2, to which the time
    * at which it came is added, and the time since the first stamp is the latency. Count 2
    * is not answered; the time since the second stamp is the latency. Others do nothing.
    */
  lemma {:induction false} ClockIsAnswered(p: Peer, buf: seq<byte>, port: Port, now: uint64, c: Clock)
    requires IsClock(buf, c)
    ensures var s := OnCk(p, buf, port, now);
            && s.outcome == Pass
            && (c.count == 0 ==>
                  && |s.raised| == 1 && SendsClock(s.raised[0], port, Clock(p.localSsrc, 1, c.ck1, now, 0))
                  && s.peer == p)
            && (c.count == 1 ==>
                  && |s.raised| == 2 && s.raised[0] == CkEvent(s.peer.latency)
                  && SendsClock(s.raised[1], port, Clock(p.localSsrc, 2, c.ck1, c.ck2, now))
                  && s.peer == p.(latency := s.peer.latency, waitingCk := false)
                  && (c.ck1 <= now ==> s.peer.latency == now - c.ck1))
            && (c.count == 2 ==>
                  && s.raised == [CkEvent(s.peer.latency)] && s.peer == p.(latency := s.peer.latency)
                  && (c.ck2 <= now ==> s.peer.latency == now - c.ck2))
            && (c.count > 2 ==> s.raised == [] && s.peer == p)
  {
    ClockFields(buf, c);
    NoWrap(now, c.ck1);
    NoWrap(now, c.ck2);
    hide IsClock, CkPacket, U64, Minus64;
    CkPacketIsClock(p.localSsrc, 1, c.ck1, now, 0);
    CkPacketIsClock(p.localSsrc, 2, c.ck1, c.ck2, now);
  }

  lemma {:induction false} ClockFields(buf: seq<byte>, c: Clock)
    requires IsClock(buf, c)
    ensures |buf| == 36 && buf[8] == c.count && U64(buf, 12) == c.ck1 && U64(buf, 20) == c.ck2
  {
    hide U16, U32, U64;
  }

  lemma {:induction false} NoWrap(now: uint64, since: uint64)
    ensures since <= now ==> Minus64(now, since) == now - since
  {}

  // ----- goodbye

  /** A BY of this peer on the port, which names it and its session. */
  predicate SaysBy(s: Signal, p: Peer, port: Port) {
    && s.SendEvent? && s.port == port && |s.packet| == 16 && IsCommand(s.packet) && U16(s.packet, 2) == BY
    && U32(s.packet, 4) == 2 && U32(s.packet, 8) == p.initiatorId && U32(s.packet, 12) == p.localSsrc
  }

  /** A goodbye says BY on its port and takes its bit, and the disconnection is raised when no bit is left. */
  lemma {:induction false} GoodbyeSays(p: Peer, port: Port)
    ensures var s := SendGoodbye(p, port);
            && |s.raised| >= 1 && SaysBy(s.raised[0], p, port)
            && (forall q :: HasBit(s.peer.status, q) <==> HasBit(p.status, q) && q != port)
            && s.raised[1..] == (if HasBit(s.peer.status, MidiPort) || HasBit(s.peer.status, ControlPort) then []
                                 else [StatusChange(DISCONNECTED_DISCONNECT)])
            && s.peer == p.(status := s.peer.status)
  {
    SessionReadsBack(BY, p.initiatorId, p.localSsrc, []);
    assert SessionPacket(BY, p.initiatorId, p.localSsrc) + [] == SessionPacket(BY, p.initiatorId, p.localSsrc);
    hide SessionPacket, U16, U32;
  }

  /** The ports that a peer says goodbye on. */
  function PortsOf(status: Status): seq<Port> {
    (if HasBit(status, MidiPort) then [MidiPort] else []) + (if HasBit(status, ControlPort) then [ControlPort] else [])
  }

  /**
    * To disconnect is to say BY once on each connected port, the MIDI port first, to raise
    * the disconnection once if there was a connection, and to know nobody any more.
    */
  lemma {:induction false} DisconnectSays(p: Peer)
    ensures var s, ports := Disconnect(p), PortsOf(p.status);
            && |s.raised| == |ports| + (if ports == [] then 0 else 1)
            && (forall i | 0 <= i < |ports| :: SaysBy(s.raised[i], p, ports[i]))
            && (ports != [] ==> s.raised[|ports|] == StatusChange(DISCONNECTED_DISCONNECT))
            && s.peer == p.(status := NOT_CONNECTED, remoteSsrc := 0, initiatorId := 0, remoteName := [])
  {
    var a := if HasBit(p.status, MidiPort) then SendGoodbye(p, MidiPort) else Step(p, [], Pass);
    GoodbyeSays(p, MidiPort);
    GoodbyeSays(a.peer, ControlPort);
    assert HasBit(a.peer.status, ControlPort) == HasBit(p.status, ControlPort);
    hide SendGoodbye;
  }

  /** So it hears no MIDI of the side it was connected to. */
  lemma {:induction false} DisconnectedIsDeaf(p: Peer, buf: seq<byte>, beyond: byte, journal: Journal)
    requires p.Valid() && |buf| >= 12 && U32(buf, 8) == p.remoteSsrc != 0
    ensures var q := Disconnect(p).peer; q.Valid() && ParseMidi(q, buf, beyond, journal).raised == []
  {
    DisconnectSays(p);
    ForeignIsNotHeard(Disconnect(p).peer, buf, beyond, journal);
    hide ParseMidi;
  }

  /** A peer that is not connected sends no MIDI. */
  lemma {:induction false} OnlyConnectedSends(p: Peer, events: seq<byte>, from: nat, now: uint64)
    ensures (SendMidi(p, events, from, now).raised != []
             <==> HasBit(p.status, MidiPort) && HasBit(p.status, ControlPort) && from == 0 && |events| <= 4094)
  {
    hide Framed;
  }

  // ----- packets that are cut off, and feedback

  /** A packet that ends before its list does raises nothing and throws. */
  lemma {:induction false} CutOffIsNotHeard(p: Peer, buf: seq<byte>, beyond: byte, journal: Journal)
    requires p.Valid() && |buf| >= 2 && buf[1] % 0x80 == 0x61
    requires |buf| < 12 || (U32(buf, 8) == p.remoteSsrc
                            && (|buf| < 13 || |buf| < ListStart(buf) || |buf| < ListStart(buf) + ListLength(buf)))
    ensures var s := ParseMidi(p, buf, beyond, journal);
            && s.raised == [] && s.outcome == Fail(EndOfBuffer) && s.peer == p.(remoteSeqNr := s.peer.remoteSeqNr)
  {
    hide U16, U32, OnList;
  }

  /**
    * A packet with a journal: what the journal says is raised first, in its order, then its
    * end is reported back on the control port, and then the list is received.
    */
  lemma {:induction false} JournalComesFirst(p: Peer, buf: seq<byte>, beyond: byte, journal: Journal, list: List)
    requires p.Valid() && CarriesList(buf, p.remoteSsrc, list) && HasJournal(buf) && journal.outcome.Pass?
    ensures var s, n := ParseMidi(p, buf, beyond, journal), |journal.events|;
            var (r, o) := ReceiveAll(Receiver(Pending(p), []), Commands(list.entries));
            && |s.raised| == n + 1 + |r.events| && s.outcome == o
            && (forall i | 0 <= i < n :: s.raised[i] == MidiEvent(journal.events[i]))
            && (forall i | 0 <= i < |r.events| :: s.raised[n + 1 + i] == MidiEvent(r.events[i]))
            && s.raised[n].SendEvent? && s.raised[n].port == ControlPort
            && var report := s.raised[n].packet;
            && IsFeedback(report) && U32(report, 4) == p.localSsrc && U32(report, 8) == journal.seqNr
  {
    PacketReceived(p, buf, beyond, journal, list);
    FeedbackSays(p.localSsrc, journal.seqNr);
    hide ParseMidi, CarriesList, HasJournal, ReceiveAll, FeedbackPacket, IsFeedback, U32;
  }

  lemma {:induction false} FeedbackSays(ssrc: uint32, n: uint16)
    ensures var buf := FeedbackPacket(ssrc, n); IsFeedback(buf) && U32(buf, 4) == ssrc && U32(buf, 8) == n
  {
    var buf := FeedbackPacket(ssrc, n);
    CommandReadsBack(RS, ssrc, Octets(n, 4));
    assert CommandOctets(RS, ssrc)[2..4] == Octets(RS, 2) && buf[2..4] == CommandOctets(RS, ssrc)[2..4];
    OctetsTwo(RS);
    assert buf[2] == buf[2..4][0] && buf[3] == buf[2..4][1];
    PowersOf256();
    BigEndianOfOctets(n, 4);
    assert buf[8..12] == Octets(n, 4);
    hide Octets, CommandOctets, BigEndian;
  }

  /** MIDI that comes by the control port is not heard either. */
  lemma {:induction false} ControlPortHearsNoMidi(p: Peer, buf: seq<byte>, beyond: byte, now: uint64, journal: Journal)
    requires p.Valid() && !IsCommand(buf)
    ensures var s := DataReady(p, buf, beyond, ControlPort, now, journal);
            s.raised == [] && s.outcome == Pass && s.peer == p.(seqNrAck := s.peer.seqNrAck)
  {}

  /**
    * What a peer reports as received, the other side reads as 0: the number is written in
    * four octets and read from the first two of them. It is read right if and only if it is 0.
    */
  lemma {:induction false} FeedbackIsReadIff(
    p: Peer, ssrc: uint32, n: uint16, beyond: byte, now: uint64, journal: Journal)
    requires p.Valid()
    ensures var s := DataReady(p, FeedbackPacket(ssrc, n), beyond, ControlPort, now, journal);
            s.peer == p.(seqNrAck := 0) && s.raised == [] && (s.peer.seqNrAck == n <==> n == 0)
  {
    var buf := FeedbackPacket(ssrc, n);
    CommandReadsBack(RS, ssrc, Octets(n, 4));
    assert |buf| == 12 && U16(buf, 2) == RS;
    assert buf[2..4] == Octets(RS, 2) by {
      assert CommandOctets(RS, ssrc)[2..4] == Octets(RS, 2);
    }
    OctetsTwo(RS);
    assert buf[2] == buf[2..4][0] && buf[3] == buf[2..4][1];
    HighHalfIsZero(n);
    assert buf[8..12] == Octets(n, 4) && buf[8..10] == buf[8..12][..2];
    hide Octets, CommandOctets, BigEndian;
  }

  lemma {:induction false} HighHalfIsZero(n: uint16)
    ensures |Octets(n, 4)| == 4 && BigEndian(Octets(n, 4)[..2]) == 0
  {
    OctetsFour(n);
    assert Octets(n, 4)[..2] == [0, 0];
    BigEndianTwo(0, 0);
    hide Octets, BigEndian;
  }
}
