/**
  * rtppeer_t of lib/rtppeer.cpp: the session commands and the MIDI packets of one peer.
  *
  * For every method there is a function that says what it does to the state and which
  * signals it raises, on the octets of the packet. The class below does it the way the
  * source does, with cursors and fields, and is proved to do just that.
  */
module RtpPeers {
  import opened Wrappers
  import opened IoBytes
  import opened MidiList

  datatype Port = MidiPort | ControlPort

  // ----- the two port bits of status_e, and the codes that are only raised

  type Status = s: nat | s <= 3
  const NOT_CONNECTED: Status := 0
  const CONTROL_CONNECTED: Status := 1
  const MIDI_CONNECTED: Status := 2
  const CONNECTED: Status := 3
  const DISCONNECTED_PEER_DISCONNECTED := 130
  const DISCONNECTED_CONNECTION_REJECTED := 131
  const DISCONNECTED_DISCONNECT := 132

  function Bit(port: Port): Status {
    if port.MidiPort? then MIDI_CONNECTED else CONTROL_CONNECTED
  }

  predicate HasBit(status: Status, port: Port) {
    status / Bit(port) % 2 == 1
  }

  function SetBit(status: Status, port: Port): (s: Status)
    ensures HasBit(s, port) && forall q | q != port :: HasBit(s, q) == HasBit(status, q)
  {
    if HasBit(status, port) then status else status + Bit(port)
  }

  function ClearBit(status: Status, port: Port): (s: Status)
    ensures !HasBit(s, port) && forall q | q != port :: HasBit(s, q) == HasBit(status, q)
  {
    if HasBit(status, port) then status - Bit(port) else status
  }

  // ----- commands

  const IN: uint16 := 0x494E
  const OK: uint16 := 0x4F4B
  const NO: uint16 := 0x4E4F
  const BY: uint16 := 0x4259
  const CK: uint16 := 0x434B
  const RS: uint16 := 0x5253

  datatype Peer = Peer(
    status: Status,
    initiatorId: uint32,
    remoteSsrc: uint32,
    localSsrc: uint32,
    localName: seq<byte>,
    remoteName: seq<byte>,
    seqNr: uint16,
    seqNrAck: uint16,
    remoteSeqNr: uint16,
    latency: uint64,
    waitingCk: bool,
    running: byte,
    sysex: seq<byte>)
  {
    predicate Valid() {
      Decoder(running, sysex, []).Valid()
    }
  }

  datatype Signal =
    | SendEvent(packet: seq<byte>, port: Port)
    | StatusChange(code: nat)
    | MidiEvent(message: Message)
    | CkEvent(latency: uint64)

  datatype Step = Step(peer: Peer, raised: seq<Signal>, outcome: Outcome)

  function U16(buf: seq<byte>, at: nat): (v: uint16)
    requires at + 2 <= |buf|
  {
    OctetsOfBigEndian(buf[at..at + 2]);
    PowersOf256();
    BigEndian(buf[at..at + 2])
  }

  function U32(buf: seq<byte>, at: nat): (v: uint32)
    requires at + 4 <= |buf|
  {
    OctetsOfBigEndian(buf[at..at + 4]);
    PowersOf256();
    BigEndian(buf[at..at + 4])
  }

  function U64(buf: seq<byte>, at: nat): (v: uint64)
    requires at + 8 <= |buf|
  {
    OctetsOfBigEndian(buf[at..at + 8]);
    PowersOf256();
    BigEndian(buf[at..at + 8])
  }

  /** What every command packet starts with. */
  function CommandOctets(command: uint16, a: uint32): (s: seq<byte>)
    ensures |s| == 8
  {
    Octets(0xFFFF, 2) + Octets(command, 2) + Octets(a, 4)
  }

  /** IN, OK and BY: protocol version, initiator and SSRC; IN and OK add the sender's name. */
  function SessionPacket(command: uint16, initiatorId: uint32, ssrc: uint32): (s: seq<byte>)
    ensures |s| == 16
  {
    CommandOctets(command, 2) + Octets(initiatorId, 4) + Octets(ssrc, 4)
  }

  function CkPacket(ssrc: uint32, count: byte, ck1: uint64, ck2: uint64, ck3: uint64): (s: seq<byte>)
    ensures |s| == 36
  {
    CommandOctets(CK, ssrc) + [count] + [0] + Octets(0, 2) + Octets(ck1, 8) + Octets(ck2, 8) + Octets(ck3, 8)
  }

  function FeedbackPacket(ssrc: uint32, seqNr: uint16): seq<byte> {
    CommandOctets(RS, ssrc) + Octets(seqNr, 4)
  }

  function Reset(p: Peer): Peer {
    p.(status := NOT_CONNECTED, remoteName := [], remoteSsrc := 0, initiatorId := 0)
  }

  function ConnectTo(p: Peer, port: Port): Step {
    if 16 + |p.localName| + 1 <= 1500 then
      Step(p, [SendEvent(SessionPacket(IN, p.initiatorId, p.localSsrc) + p.localName + [0], port)], Pass)
    else Step(p, [], Fail(EndOfBuffer))
  }

  function OnOk(p: Peer, buf: seq<byte>, port: Port): Step
    requires |buf| >= 16
  {
    if p.status == CONNECTED then Step(p, [], Pass)
    else
      var p1 := p.(remoteSsrc := U32(buf, 12), remoteName := Str0At(buf, 16));
      if U32(buf, 4) != 2 then Step(p1, [], Fail(BadProtocol))
      else if U32(buf, 8) != p.initiatorId then Step(p1, [], Fail(UnknownInitiator))
      else
        var status := SetBit(p.status, port);
        Step(p1.(status := status), [StatusChange(status)], Pass)
  }

  function OnIn(p: Peer, buf: seq<byte>, port: Port): Step
    requires |buf| >= 16
  {
    var p1 := p.(initiatorId := U32(buf, 8), remoteSsrc := U32(buf, 12), remoteName := Str0At(buf, 16));
    if U32(buf, 4) != 2 then Step(p1, [], Fail(BadProtocol))
    else if 16 + |p.localName| + 1 > 128 then Step(p1, [], Fail(EndOfBuffer))
    else
      var status := SetBit(p.status, port);
      Step(p1.(status := status),
           [SendEvent(SessionPacket(OK, p1.initiatorId, p.localSsrc) + p.localName + [0], port),
            StatusChange(status)],
           Pass)
  }

  function OnBy(p: Peer, buf: seq<byte>, port: Port): Step
    requires |buf| >= 16
  {
    var p1 := p.(initiatorId := U32(buf, 8));
    if U32(buf, 4) != 2 then Step(p1, [], Fail(BadProtocol))
    else if U32(buf, 12) != p.remoteSsrc then Step(p1, [], Pass)
    else
      var status := ClearBit(p.status, port);
      Step(p1.(status := status),
           if status == NOT_CONNECTED then [StatusChange(DISCONNECTED_PEER_DISCONNECTED)] else [],
           Pass)
  }

  function OnNo(p: Peer, buf: seq<byte>, port: Port): Step
    requires |buf| >= 16
  {
    var p1 := p.(initiatorId := U32(buf, 8));
    if U32(buf, 4) != 2 then Step(p1, [], Fail(BadProtocol))
    else Step(p1.(status := ClearBit(p.status, port)), [StatusChange(DISCONNECTED_CONNECTION_REJECTED)], Pass)
  }

  /** Unsigned 64-bit subtraction. */
  function Minus64(a: uint64, b: uint64): uint64 {
    (a - b) % 0x1_0000_0000_0000_0000
  }

  /** A clock exchange packet; `now` is the time on this peer's own clock. */
  function OnCk(p: Peer, buf: seq<byte>, port: Port, now: uint64): Step
    requires |buf| >= 16
  {
    if |buf| < 20 then Step(p, [], Fail(EndOfBuffer))
    else
      var count, ck1 := buf[8], U64(buf, 12);
      if count == 0 then
        Step(p, [SendEvent(CkPacket(p.localSsrc, 1, ck1, now, 0), port)], Pass)
      else if count == 1 then
        if |buf| < 28 then Step(p, [], Fail(EndOfBuffer))
        else
          var latency := Minus64(now, ck1);
          Step(p.(latency := latency, waitingCk := false),
               [CkEvent(latency), SendEvent(CkPacket(p.localSsrc, 2, ck1, U64(buf, 20), now), port)],
               Pass)
      else if count == 2 then
        if |buf| < 28 then Step(p, [], Fail(EndOfBuffer))
        else
          var latency := Minus64(now, U64(buf, 20));
          Step(p.(latency := latency), [CkEvent(latency)], Pass)
      else Step(p, [], Pass)
  }

  function SendCk0(p: Peer, now: uint64): Step {
    Step(p.(waitingCk := true), [SendEvent(CkPacket(p.localSsrc, 0, now, 0, 0), MidiPort)], Pass)
  }

  function SendGoodbye(p: Peer, port: Port): Step {
    var status := ClearBit(p.status, port);
    Step(p.(status := status),
         [SendEvent(SessionPacket(BY, p.initiatorId, p.localSsrc), port)]
         + if status == NOT_CONNECTED then [StatusChange(DISCONNECTED_DISCONNECT)] else [],
         Pass)
  }

  function Disconnect(p: Peer): Step {
    var a := if HasBit(p.status, MidiPort) then SendGoodbye(p, MidiPort) else Step(p, [], Pass);
    var b := if HasBit(a.peer.status, ControlPort) then SendGoodbye(a.peer, ControlPort) else Step(a.peer, [], Pass);
    Step(Reset(b.peer), a.raised + b.raised, Pass)
  }

  // ----- MIDI packets

  /** What parse_journal did with the journal of a packet; the journal itself is not modelled. */
  datatype Journal = Journal(events: seq<Message>, seqNr: uint16, outcome: Outcome)

  function MidiEvents(ms: seq<Message>): (s: seq<Signal>)
    ensures |s| == |ms|
  {
    seq(|ms|, i requires 0 <= i < |ms| => MidiEvent(ms[i]))
  }

  lemma {:induction false} MidiEventsAppend(a: seq<Message>, b: seq<Message>)
    ensures MidiEvents(a + b) == MidiEvents(a) + MidiEvents(b)
  {
  }

  /** The signals of the journal, which come before those of the list. */
  function JournalSignals(ssrc: uint32, journal: Journal): seq<Signal> {
    MidiEvents(journal.events)
    + if journal.outcome.Pass? then [SendEvent(FeedbackPacket(ssrc, journal.seqNr), ControlPort)] else []
  }

  /** The list that starts at `pos`, behind the header and the journal. */
  function OnList(p: Peer, buf: seq<byte>, beyond: byte, pos: nat, length: nat, hasDelta: bool): Step
    requires 1 <= pos && p.Valid()
  {
    var delta := if hasDelta then ReadDelta(buf, pos) else Success(Delta(0, pos));
    if delta.Failure? then Step(p, [], Fail(EndOfBuffer))
    else
      var start := delta.value.end;
      var r := DecodeList(buf, beyond, start, length - (start - pos), Decoder(0, p.sysex, []));
      Step(p.(running := r.decoder.running, sysex := r.decoder.sysex), MidiEvents(r.decoder.events), r.outcome)
  }

  function ParseMidi(p: Peer, buf: seq<byte>, beyond: byte, journal: Journal): Step
    requires p.Valid()
  {
    if |buf| < 2 then Step(p, [], Fail(EndOfBuffer))
    else if buf[1] % 0x80 != 0x61 then Step(p, [], Pass)
    else if |buf| < 4 then Step(p, [], Fail(EndOfBuffer))
    else
      var p1 := p.(remoteSeqNr := U16(buf, 2));
      if |buf| < 12 then Step(p1, [], Fail(EndOfBuffer))
      else if U32(buf, 8) != p.remoteSsrc then Step(p1, [], Pass)
      else if |buf| < 13 || (buf[12] >= 0x80 && |buf| < 14) then Step(p1, [], Fail(EndOfBuffer))
      else
        var header := buf[12];
        var pos := if header >= 0x80 then 14 else 13;
        var length := if header >= 0x80 then header as int % 0x10 * 0x100 + buf[13] as int else header as int % 0x10;
        if pos + length > |buf| then Step(p1, [], Fail(EndOfBuffer))
        else if header / 0x40 % 2 == 1 then
          if journal.outcome.Fail? then Step(p1, JournalSignals(p.localSsrc, journal), journal.outcome)
          else
            var s := OnList(p1.(remoteSeqNr := journal.seqNr), buf, beyond, pos, length, header / 0x20 % 2 == 1);
            s.(raised := JournalSignals(p.localSsrc, journal) + s.raised)
        else OnList(p1, buf, beyond, pos, length, header / 0x20 % 2 == 1)
  }

  function RtpHeader(seqNr: uint16, timestamp: uint32, ssrc: uint32): (s: seq<byte>)
    ensures |s| == 12
  {
    [0x80, 0x61] + Octets(seqNr, 2) + Octets(timestamp, 4) + Octets(ssrc, 4)
  }

  function LengthHeader(n: nat): (s: seq<byte>)
    ensures |s| == if n < 16 then 1 else 2
  {
    if n < 16 then [n] else [n / 0x100 % 0x10 + 0x80, n % 0x100]
  }

  /** The packet that send_midi makes of a payload. */
  function Framed(ssrc: uint32, seqNr: uint16, timestamp: uint32, payload: seq<byte>): seq<byte> {
    RtpHeader(seqNr, timestamp, ssrc) + LengthHeader(|payload|) + payload
  }

  /** send_midi on a cursor over `events` that stands at `from`. */
  function SendMidi(p: Peer, events: seq<byte>, from: nat, now: uint64): Step {
    if p.status != CONNECTED then Step(p, [], Pass)
    else
      var p1 := p.(seqNr := (p.seqNr + 1) % 0x1_0000);
      if 12 + |LengthHeader(|events|)| + |events| > 4108 || from != 0 then Step(p1, [], Fail(EndOfBuffer))
      else Step(p1, [SendEvent(Framed(p.localSsrc, p1.seqNr, now % 0x1_0000_0000, events), MidiPort)], Pass)
  }

  // ----- dispatch

  predicate IsCommand(buf: seq<byte>) {
    |buf| >= 16 && buf[0] == 0xFF && buf[1] == 0xFF
  }

  predicate IsFeedback(buf: seq<byte>) {
    |buf| >= 12 && buf[0] == 0xFF && buf[1] == 0xFF && buf[2] == 0x52 && buf[3] == 0x53
  }

  function ParseCommand(p: Peer, buf: seq<byte>, port: Port, now: uint64): Step
    requires |buf| >= 16
  {
    var command := U16(buf, 2);
    if command == OK then OnOk(p, buf, port)
    else if command == IN then OnIn(p, buf, port)
    else if command == CK then OnCk(p, buf, port, now)
    else if command == BY then OnBy(p, buf, port)
    else if command == NO then OnNo(p, buf, port)
    else Step(p, [], Fail(UnknownCommand))
  }

  function DataReady(p: Peer, buf: seq<byte>, beyond: byte, port: Port, now: uint64, journal: Journal): Step
    requires p.Valid()
  {
    if IsCommand(buf) then ParseCommand(p, buf, port, now)
    else if port.MidiPort? then ParseMidi(p, buf, beyond, journal)
    else if IsFeedback(buf) then Step(p.(seqNrAck := U16(buf, 8)), [], Pass)
    else Step(p, [], Pass)
  }

  // ----- the class

  class RtpPeer {
    var status: Status
    var initiatorId: uint32
    var remoteSsrc: uint32
    const localSsrc: uint32
    const localName: seq<byte>
    var remoteName: seq<byte>
    var seqNr: uint16
    var seqNrAck: uint16
    var remoteSeqNr: uint16
    var latency: uint64
    var waitingCk: bool
    var running: byte
    var sysex: seq<byte>

    /** Every signal raised so far, oldest first. */
    var log: seq<Signal>

    function State(): Peer
      reads this
    {
      Peer(status, initiatorId, remoteSsrc, localSsrc, localName, remoteName,
           seqNr, seqNrAck, remoteSeqNr, latency, waitingCk, running, sysex)
    }

    ghost predicate Valid()
      reads this
    {
      State().Valid()
    }

    /** This peer has come from the log `before` by the step `s`. */
    ghost predicate Did(s: Step, before: seq<Signal>)
      reads this
    {
      State() == s.peer && log == before + s.raised
    }

    constructor (name: seq<byte>, ssrc: uint32, firstSeqNr: uint16)
      ensures Valid() && log == []
      ensures State() == Peer(NOT_CONNECTED, 0, 0, ssrc, name, [], firstSeqNr, firstSeqNr, 0, 0, false, 0, [])
    {
      localName, localSsrc, seqNr, seqNrAck := name, ssrc, firstSeqNr, firstSeqNr;
      status, initiatorId, remoteSsrc, remoteName := NOT_CONNECTED, 0, 0, [];
      remoteSeqNr, latency, waitingCk, running, sysex := 0, 0, false, 0, [];
      log := [];
    }

    method Raise(signal: Signal)
      modifies this`log
      ensures log == old(log) + [signal]
    {
      log := log + [signal];
    }

    method ResetPeer()
      modifies this
      ensures State() == Reset(old(State())) && log == old(log)
    {
      status, remoteName, remoteSsrc, initiatorId := NOT_CONNECTED, [], 0, 0;
    }

    /** Writes signature, command and one more word. */
    static method WriteCommand(command: uint16, a: uint32, capacity: nat) returns (buffer: Writer)
      requires capacity >= 8
      ensures fresh(buffer) && fresh(buffer.mem) && buffer.Valid()
      ensures buffer.mem.Length == capacity && buffer.Written() == CommandOctets(command, a)
    {
      buffer := new Writer(capacity);
      var _ := buffer.WriteUint16(0xFFFF);
      var _ := buffer.WriteUint16(command);
      var _ := buffer.WriteUint32(a);
    }

    static method WriteSession(command: uint16, initiator: uint32, ssrc: uint32, capacity: nat) returns (buffer: Writer)
      requires capacity >= 16
      ensures fresh(buffer) && fresh(buffer.mem) && buffer.Valid()
      ensures buffer.mem.Length == capacity && buffer.Written() == SessionPacket(command, initiator, ssrc)
    {
      buffer := WriteCommand(command, 2, capacity);
      var _ := buffer.WriteUint32(initiator);
      var _ := buffer.WriteUint32(ssrc);
    }

    method WriteCk(count: byte, ck1: uint64, ck2: uint64, ck3: uint64) returns (buffer: Writer)
      ensures fresh(buffer) && fresh(buffer.mem) && buffer.Valid()
      ensures buffer.Written() == CkPacket(localSsrc, count, ck1, ck2, ck3)
    {
      hide Octets, CommandOctets;
      buffer := WriteCommand(CK, localSsrc, 36);
      var _ := buffer.WriteUint8(count);
      var _ := buffer.WriteUint8(0);
      var _ := buffer.WriteUint16(0);
      var _ := buffer.WriteUint64(ck1);
      var _ := buffer.WriteUint64(ck2);
      var _ := buffer.WriteUint64(ck3);
    }

    method ConnectToPort(port: Port) returns (o: Outcome)
      requires 16 + |localName| != 1500
      modifies this`log
      ensures Did(ConnectTo(old(State()), port), old(log)) && o == ConnectTo(old(State()), port).outcome
    {
      var buffer := WriteSession(IN, initiatorId, localSsrc, 1500);
      o := buffer.WriteStr0(localName);
      if o.Fail? {
        return;
      }
      Raise(SendEvent(buffer.Written(), port));
    }

    /** Reads protocol version, initiator and SSRC, with which IN, OK, BY and NO go on. */
    static method ReadSession(buffer: Reader) returns (protocol: uint32, initiator: uint32, ssrc: uint32)
      requires buffer.Valid() && buffer.size >= 16 && buffer.position == 4
      modifies buffer`position
      ensures buffer.position == 16
      ensures protocol == U32(buffer.View(), 4)
      ensures initiator == U32(buffer.View(), 8)
      ensures ssrc == U32(buffer.View(), 12)
    {
      var a := buffer.ReadUint32();
      var b := buffer.ReadUint32();
      var c := buffer.ReadUint32();
      protocol, initiator, ssrc := a.value, b.value, c.value;
    }

    method ParseCommandOk(buffer: Reader, port: Port) returns (o: Outcome)
      requires buffer.Valid() && buffer.size >= 16 && buffer.position == 4
      modifies this, buffer`position
      ensures Did(OnOk(old(State()), buffer.View(), port), old(log))
      ensures o == OnOk(old(State()), buffer.View(), port).outcome
    {
      if status == CONNECTED {
        return Pass;
      }
      hide U32, Str0At, SetBit;
      var protocol, initiator, ssrc := ReadSession(buffer);
      remoteSsrc := ssrc;
      remoteName := buffer.ReadStr0();
      if protocol != 2 {
        return Fail(BadProtocol);
      }
      if initiator != initiatorId {
        return Fail(UnknownInitiator);
      }
      status := SetBit(status, port);
      Raise(StatusChange(status));
      return Pass;
    }

    method SendOk(port: Port) returns (o: Outcome)
      requires 16 + |localName| != 128
      modifies this`log
      ensures o == if 16 + |localName| + 1 > 128 then Fail(EndOfBuffer) else Pass
      ensures log == old(log) + if o.Fail? then []
                                else [SendEvent(SessionPacket(OK, initiatorId, localSsrc) + localName + [0], port)]
    {
      var response := WriteSession(OK, initiatorId, localSsrc, 128);
      o := response.WriteStr0(localName);
      if o.Pass? {
        Raise(SendEvent(response.Written(), port));
      }
    }

    method ParseCommandIn(buffer: Reader, port: Port) returns (o: Outcome)
      requires buffer.Valid() && buffer.size >= 16 && buffer.position == 4
      requires 16 + |localName| != 128
      modifies this, buffer`position
      ensures Did(OnIn(old(State()), buffer.View(), port), old(log))
      ensures o == OnIn(old(State()), buffer.View(), port).outcome
    {
      hide U32, Str0At, SessionPacket, SetBit, Octets;
      var protocol, initiator, ssrc := ReadSession(buffer);
      initiatorId, remoteSsrc := initiator, ssrc;
      remoteName := buffer.ReadStr0();
      if protocol != 2 {
        return Fail(BadProtocol);
      }
      o := SendOk(port);
      if o.Fail? {
        return;
      }
      status := SetBit(status, port);
      Raise(StatusChange(status));
    }

    method ParseCommandBy(buffer: Reader, port: Port) returns (o: Outcome)
      requires buffer.Valid() && buffer.size >= 16 && buffer.position == 4
      modifies this, buffer`position
      ensures Did(OnBy(old(State()), buffer.View(), port), old(log))
      ensures o == OnBy(old(State()), buffer.View(), port).outcome
    {
      var protocol, initiator, ssrc := ReadSession(buffer);
      initiatorId := initiator;
      if protocol != 2 {
        return Fail(BadProtocol);
      }
      if ssrc != remoteSsrc {
        return Pass;
      }
      status := ClearBit(status, port);
      if status == NOT_CONNECTED {
        Raise(StatusChange(DISCONNECTED_PEER_DISCONNECTED));
      }
      return Pass;
    }

    method ParseCommandNo(buffer: Reader, port: Port) returns (o: Outcome)
      requires buffer.Valid() && buffer.size >= 16 && buffer.position == 4
      modifies this, buffer`position
      ensures Did(OnNo(old(State()), buffer.View(), port), old(log))
      ensures o == OnNo(old(State()), buffer.View(), port).outcome
    {
      var protocol, initiator, _ := ReadSession(buffer);
      initiatorId := initiator;
      if protocol != 2 {
        return Fail(BadProtocol);
      }
      status := ClearBit(status, port);
      Raise(StatusChange(DISCONNECTED_CONNECTION_REJECTED));
      return Pass;
    }

    method SendCkPacket(count: byte, ck1: uint64, ck2: uint64, ck3: uint64, port: Port)
      modifies this`log
      ensures log == old(log) + [SendEvent(CkPacket(localSsrc, count, ck1, ck2, ck3), port)]
    {
      var response := WriteCk(count, ck1, ck2, ck3);
      Raise(SendEvent(response.Written(), port));
    }

    /** The count and the first time stamp. */
    static method ReadCk(buffer: Reader) returns (count: byte, ck1: Result<uint64>)
      requires buffer.Valid() && buffer.size >= 16 && buffer.position == 4
      modifies buffer`position
      ensures count == buffer.View()[8]
      ensures buffer.size < 20 ==> ck1 == Failure(EndOfBuffer)
      ensures buffer.size >= 20 ==> ck1 == Success(U64(buffer.View(), 12)) && buffer.position == 20
    {
      var _ := buffer.ReadUint32();
      var countRead := buffer.ReadUint8();
      count := countRead.value;
      var _ := buffer.ReadUint8();
      var _ := buffer.ReadUint16();
      ck1 := buffer.ReadUint64();
    }

    method ParseCommandCk(buffer: Reader, port: Port, now: uint64) returns (o: Outcome)
      requires buffer.Valid() && buffer.size >= 16 && buffer.position == 4
      modifies this, buffer`position
      ensures Did(OnCk(old(State()), buffer.View(), port, now), old(log))
      ensures o == OnCk(old(State()), buffer.View(), port, now).outcome
    {
      hide CkPacket, Minus64, U64;
      var count, ck1 := ReadCk(buffer);
      if ck1.Failure? {
        return Fail(ck1.error);
      }
      if count == 0 {
        SendCkPacket(1, ck1.value, now, 0, port);
      } else if count == 1 {
        var ck2 := ReadCk2(buffer);
        if ck2.Failure? {
          return Fail(ck2.error);
        }
        latency, waitingCk := Minus64(now, ck1.value), false;
        Raise(CkEvent(latency));
        SendCkPacket(2, ck1.value, ck2.value, now, port);
      } else if count == 2 {
        var ck2 := ReadCk2(buffer);
        if ck2.Failure? {
          return Fail(ck2.error);
        }
        latency := Minus64(now, ck2.value);
        Raise(CkEvent(latency));
      }
      return Pass;
    }

    static method ReadCk2(buffer: Reader) returns (ck2: Result<uint64>)
      requires buffer.Valid() && buffer.size >= 20 && buffer.position == 20
      modifies buffer`position
      ensures ck2 == if buffer.size < 28 then Failure(EndOfBuffer) else Success(U64(buffer.View(), 20))
    {
      ck2 := buffer.ReadUint64();
    }

    method SendCk(now: uint64)
      modifies this
      ensures Did(SendCk0(old(State()), now), old(log))
    {
      waitingCk := true;
      SendCkPacket(0, now, 0, 0, MidiPort);
    }

    method SendGoodbyeTo(toPort: Port)
      modifies this
      ensures Did(SendGoodbye(old(State()), toPort), old(log))
    {
      var buffer := WriteSession(BY, initiatorId, localSsrc, 64);
      Raise(SendEvent(buffer.Written(), toPort));
      if status == CONNECTED {
        if toPort.MidiPort? {
          status := CONTROL_CONNECTED;
        } else {
          status := MIDI_CONNECTED;
        }
      }
      if status == MIDI_CONNECTED && toPort.MidiPort? {
        status := NOT_CONNECTED;
      }
      if status == CONTROL_CONNECTED && toPort.ControlPort? {
        status := NOT_CONNECTED;
      }
      if status == NOT_CONNECTED {
        Raise(StatusChange(DISCONNECTED_DISCONNECT));
      }
    }

    method DisconnectPeer()
      modifies this
      ensures Did(Disconnect(old(State())), old(log))
    {
      if HasBit(status, MidiPort) {
        SendGoodbyeTo(MidiPort);
      }
      if HasBit(status, ControlPort) {
        SendGoodbyeTo(ControlPort);
      }
      ResetPeer();
    }

    method SendFeedback(seqnum: uint16)
      modifies this
      ensures State() == old(State()).(remoteSeqNr := seqnum)
      ensures log == old(log) + [SendEvent(FeedbackPacket(localSsrc, seqnum), ControlPort)]
    {
      remoteSeqNr := seqnum;
      var buffer := WriteCommand(RS, localSsrc, 96);
      var _ := buffer.WriteUint32(seqnum);
      Raise(SendEvent(buffer.Written(), ControlPort));
    }

    // ----- MIDI

    /** The RTP header. */
    static method WriteRtpHeader(seqNr: uint16, timestamp: uint32, ssrc: uint32) returns (buffer: Writer)
      ensures fresh(buffer) && fresh(buffer.mem) && buffer.Valid() && buffer.mem.Length == 4096 + 12
      ensures buffer.Written() == RtpHeader(seqNr, timestamp, ssrc)
    {
      buffer := new Writer(4096 + 12);
      hide Octets;
      var _ := buffer.WriteUint8(0x80);
      var _ := buffer.WriteUint8(0x61);
      assert buffer.Written() == [0x80, 0x61];
      var _ := buffer.WriteUint16(seqNr);
      var _ := buffer.WriteUint32(timestamp);
      var _ := buffer.WriteUint32(ssrc);
    }

    /** The length of the MIDI list, in one octet or in two. */
    static method WriteLength(buffer: Writer, size: nat)
      requires buffer.Valid() && buffer.position + 2 <= buffer.mem.Length
      modifies buffer, buffer.mem
      ensures buffer.Valid() && buffer.Written() == old(buffer.Written()) + LengthHeader(size)
    {
      if size < 16 {
        var _ := buffer.WriteUint8(size);
      } else {
        var _ := buffer.WriteUint8(size / 0x100 % 0x10 + 0x80);
        var _ := buffer.WriteUint8(size % 0x100);
      }
    }

    method SendMidiData(events: Reader, now: uint64) returns (o: Outcome)
      requires events.Valid()
      modifies this
      ensures Did(SendMidi(old(State()), events.View(), events.position, now), old(log))
      ensures o == SendMidi(old(State()), events.View(), events.position, now).outcome
    {
      if status != CONNECTED {
        return Pass;
      }
      seqNr := (seqNr + 1) % 0x1_0000;
      hide RtpHeader, LengthHeader;
      var buffer := WriteRtpHeader(seqNr, now % 0x1_0000_0000, localSsrc);
      WriteLength(buffer, events.size);
      o := buffer.CopyFrom(events, events.size);
      if o.Fail? {
        return;
      }
      assert events.View()[0..events.size] == events.View();
      Raise(SendEvent(buffer.Written(), MidiPort));
    }

    /** The octet the memory holds right behind the packet. */
    static function Beyond(buffer: Reader): byte
      reads buffer, buffer.mem
      requires buffer.Valid()
    {
      buffer.mem[buffer.size]
    }

    static method ReadDeltaTime(buffer: Reader) returns (value: uint32, count: nat, o: Outcome)
      requires buffer.Valid()
      modifies buffer`position
      ensures match ReadDelta(buffer.View(), old(buffer.position))
              case Failure(e) => o == Fail(e)
              case Success(d) => o == Pass && value == d.value && buffer.position == d.end
      ensures o.Pass? ==> buffer.position == old(buffer.position) + count && count >= 1
    {
      hide DeltaFrom, ShiftIn;
      value, count := 0, 0;
      var r := buffer.ReadUint8();
      if r.Failure? {
        DeltaEnds(buffer.View(), buffer.position, 0);
        return value, count, Fail(r.error);
      }
      DeltaTurn(buffer.View(), old(buffer.position), 0);
      var deltaByte := r.value;
      count := 1;
      value := ShiftIn(0, deltaByte);
      while deltaByte >= 0x80
        invariant 0 < buffer.position <= buffer.size && buffer.position == old(buffer.position) + count
        invariant deltaByte == buffer.View()[buffer.position - 1]
        invariant ReadDelta(buffer.View(), old(buffer.position))
               == if deltaByte >= 0x80 then DeltaFrom(buffer.View(), buffer.position, value)
                  else Success(Delta(value, buffer.position))
        decreases buffer.size - buffer.position
      {
        r := buffer.ReadUint8();
        if r.Failure? {
          DeltaEnds(buffer.View(), buffer.position, value);
          return value, count, Fail(r.error);
        }
        DeltaTurn(buffer.View(), buffer.position - 1, value);
        deltaByte := r.value;
        value := ShiftIn(value, deltaByte);
        count := count + 1;
      }
      return value, count, Pass;
    }

    /** The scan of the SysEx branch: up to the first octet with its high bit set. */
    static method SysexLength(buffer: Reader) returns (r: Result<int>)
      requires buffer.Valid() && buffer.position < buffer.size
      ensures r == if buffer.position + 1 == buffer.size && Beyond(buffer) >= 0x80 then Success(2)
                   else match StatusFrom(buffer.View(), buffer.position + 1)
                        case None => Failure(BadMidiPacket)
                        case Some(last) => Success(last + 1 - buffer.position)
    {
      var length := 2;
      var at := buffer.position + 1;
      while buffer.mem[at] < 0x80
        invariant buffer.position + 1 <= at <= buffer.size
        invariant at == buffer.size ==> at == buffer.position + 1
        invariant length == at + 1 - buffer.position
        invariant StatusFrom(buffer.View(), buffer.position + 1) == StatusFrom(buffer.View(), at)
        decreases buffer.size - at
      {
        at := at + 1;
        if at >= buffer.size {
          return Failure(BadMidiPacket);
        }
        length := length + 1;
      }
      return Success(length);
    }

    method NextMidiPacketLength(buffer: Reader) returns (r: Result<int>)
      requires Valid() && buffer.Valid()
      modifies this`running
      ensures Valid()
      ensures r == NextLength(buffer.View(), Beyond(buffer), buffer.position, old(running))
      ensures running == if buffer.position < buffer.size
                         then RunningAfter(buffer.View()[buffer.position], old(running)) else old(running)
    {
      var enough := buffer.CheckEnough(1);
      if enough.Fail? {
        return Failure(enough.error);
      }
      var status := buffer.mem[buffer.position];
      var length := 0;
      if 0xF0 <= status <= 0xF7 {
        running := 0;
      } else if 0x80 <= status < 0xF0 {
        running := status;
      } else if status < 0x80 {
        status := running;
        length := -1;
      }
      length := length + ChannelLength(status);
      if length <= 0 {
        if status in {0xF6, 0xF8, 0xF9, 0xFA, 0xFB, 0xFC, 0xFE, 0xFF} {
          length := 1;
        } else if status in {0xF1, 0xF3} {
          length := 2;
        } else if status == 0xF2 {
          length := 3;
        } else if status in {0xF0, 0xF7, 0xF4} {
          r := SysexLength(buffer);
          return;
        }
      }
      return Success(length);
    }

    /** The end of a segment that goes on with a SysEx; `sysex` holds its data already. */
    method EndSegment(last: byte) returns (o: Outcome)
      requires |sysex| >= 2
      modifies this`sysex, this`log
      ensures o == if last in {0xF0, 0xF4, 0xF7} then Pass else Fail(BadSysEx)
      ensures sysex == if last in {0xF4, 0xF7} then [] else old(sysex)
      ensures log == old(log) + if last == 0xF7 && |old(sysex)| != 2 then [MidiEvent(old(sysex)[1..] + [0xF7])] else []
    {
      if last == 0xF7 {
        sysex := sysex + [0xF7];
        if |sysex| == 3 {
          sysex := [];
          return Pass;
        }
        Raise(MidiEvent(sysex[1..]));
        assert sysex[1..] == old(sysex)[1..] + [0xF7];
        sysex := [];
      } else if last == 0xF4 {
        sysex := [];
      } else if last == 0xF0 {
        // More segments are to come.
      } else {
        return Fail(BadSysEx);
      }
      return Pass;
    }

    method ParseSysex(buffer: Reader, length: nat) returns (o: Outcome)
      requires Valid() && buffer.Valid()
      requires 1 <= buffer.position && buffer.position + length <= buffer.size && length >= 1
      requires buffer.View()[buffer.position] in {0xF0, 0xF7} ==> length >= 2
      requires sysex != [] || buffer.View()[buffer.position] == 0xF0
      modifies this`sysex, this`log
      ensures var (d, outcome) :=
                DecodeSysex(buffer.View(), buffer.position, length, Decoder(old(running), old(sysex), []));
              && Valid() && o == outcome && sysex == d.sysex && log == old(log) + MidiEvents(d.events)
    {
      var pos, end := buffer.position, buffer.position + length;
      var last := buffer.mem[end - 1];
      if sysex != [] {
        if buffer.mem[pos] != 0xF7 {
          return Fail(BadSysEx);
        }
        assert buffer.mem[pos + 1..end - 1] == buffer.View()[pos + 1..end - 1];
        sysex := sysex + buffer.mem[pos + 1..end - 1];
        assert (sysex + [0xF7])[1..] == sysex[1..] + [0xF7];
        o := EndSegment(last);
      } else if last == 0xF7 {
        assert buffer.mem[pos..end] == buffer.View()[pos..end];
        Raise(MidiEvent(buffer.mem[pos..end]));
        o := Pass;
      } else {
        assert buffer.mem[pos - 1..end - 1] == buffer.View()[pos - 1..end - 1];
        sysex := buffer.mem[pos - 1..end - 1];
        o := Pass;
      }
    }

    /** One command of the list: a piece of a SysEx, an abbreviated command or a plain one. */
    method ParseOneCommand(buffer: Reader, length: nat) returns (o: Outcome)
      requires Valid() && buffer.Valid()
      requires 1 <= buffer.position && buffer.position + length <= buffer.size && length >= 1
      requires buffer.View()[buffer.position] in {0xF0, 0xF7} ==> length >= 2
      modifies this`sysex, this`log
      ensures var (d, outcome) :=
                DecodeCommand(buffer.View(), buffer.position, length, Decoder(old(running), old(sysex), []));
              && Valid() && o == outcome && sysex == d.sysex && log == old(log) + MidiEvents(d.events)
    {
      var pos := buffer.position;
      ghost var octets := buffer.View()[pos..pos + length];
      assert buffer.mem[pos..pos + length] == octets;
      if sysex != [] || buffer.mem[pos] == 0xF0 {
        o := ParseSysex(buffer, length);
      } else if buffer.mem[pos] < 0x80 && running != 0 {
        Raise(MidiEvent([running] + buffer.mem[pos..pos + length]));
        o := Pass;
      } else {
        Raise(MidiEvent(buffer.mem[pos..pos + length]));
        o := Pass;
      }
    }

    /** The decoder that stands where this peer stands after the messages `events`. */
    ghost function DecoderNow(events: seq<Message>): Decoder
      reads this
    {
      Decoder(running, sysex, events)
    }

    /** One turn of the loop over the MIDI list: finds the length of the next command and handles it. */
    method ParseNext(buffer: Reader) returns (o: Outcome, length: nat)
      requires Valid() && buffer.Valid() && 1 <= buffer.position
      modifies this`running, this`sysex, this`log, buffer`position
      ensures Valid()
      ensures var r := DecodeOne(buffer.View(), Beyond(buffer), old(buffer.position), old(DecoderNow([])));
              && o == r.outcome && running == r.decoder.running && sysex == r.decoder.sysex
              && log == old(log) + MidiEvents(r.decoder.events)
              && buffer.position == r.position && length == r.position - old(buffer.position)
    {
      hide NextLength, DecodeCommand, RunningAfter;
      length := 0;
      var next := NextMidiPacketLength(buffer);
      if next.Failure? {
        return Fail(next.error), 0;
      }
      if next.value == 0 {
        return Fail(BadMidiPacket), 0;
      }
      if next.value < 0 {
        // From here on the source works with a length of -1, unless a SysEx is being put together.
        return Fail(if sysex != [] then BadSysEx else OrphanData), 0;
      }
      o := buffer.CheckEnough(next.value);
      if o.Fail? {
        return;
      }
      ghost var buf := buffer.View();
      if buf[buffer.position] in {0xF0, 0xF7} {
        SegmentsAreLong(buf, Beyond(buffer), buffer.position, old(running));
      }
      o := ParseOneCommand(buffer, next.value);
      if o.Pass? {
        length := next.value;
        var _ := buffer.Skip(length);
      }
    }

    /** The while loop over the MIDI list. */
    method ParseList(buffer: Reader, length: int) returns (o: Outcome)
      requires Valid() && buffer.Valid() && 1 <= buffer.position
      modifies this`running, this`sysex, this`log, buffer`position
      ensures Valid()
      ensures var r := DecodeList(buffer.View(), Beyond(buffer), old(buffer.position), length, old(DecoderNow([])));
              && o == r.outcome && running == r.decoder.running && sysex == r.decoder.sysex
              && log == old(log) + MidiEvents(r.decoder.events)
    {
      hide DecodeList, DecodeOne, ReadDelta;
      ghost var events := [];
      ghost var whole := DecodeList(buffer.View(), Beyond(buffer), buffer.position, length, DecoderNow([]));
      ghost var buf, beyond := buffer.View(), Beyond(buffer);
      var remaining := length;
      while remaining != 0
        invariant Valid() && 1 <= buffer.position
        invariant log == old(log) + MidiEvents(events)
        invariant whole == DecodeList(buf, beyond, buffer.position, remaining, DecoderNow(events))
        decreases buffer.size - buffer.position
      {
        ghost var pos, d := buffer.position, DecoderNow(events);
        ListTurn(buf, beyond, pos, remaining, d);
        TurnKeepsEvents(buf, beyond, pos, d);
        ghost var alone := DecodeOne(buf, beyond, pos, DecoderNow([])).decoder.events;
        var size;
        o, size := ParseNext(buffer);
        MidiEventsAppend(events, alone);
        events := events + alone;
        if o.Fail? || remaining == size {
          return;
        }
        var _, count, read := ReadDeltaTime(buffer);
        if read.Fail? {
          return read;
        }
        remaining := remaining - size - count;
      }
      ListEnds(buf, beyond, buffer.position, DecoderNow(events));
      return Pass;
    }

    /** parse_journal, whose outcome is given: its messages are raised, then feedback is sent. */
    method ParseJournal(journal: Journal) returns (o: Outcome)
      modifies this
      ensures o == journal.outcome && log == old(log) + JournalSignals(localSsrc, journal)
      ensures State() == if o.Pass? then old(State()).(remoteSeqNr := journal.seqNr) else old(State())
    {
      log := log + MidiEvents(journal.events);
      if journal.outcome.Fail? {
        return journal.outcome;
      }
      SendFeedback(journal.seqNr);
      return Pass;
    }

    /** The packet behind its header: the first delta time, if flagged, and the list. */
    method ParseSection(buffer: Reader, length: nat, hasDelta: bool) returns (o: Outcome)
      requires Valid() && buffer.Valid() && 1 <= buffer.position
      modifies this, buffer`position
      ensures Valid()
      ensures Did(OnList(old(State()), buffer.View(), Beyond(buffer), old(buffer.position), length, hasDelta), old(log))
      ensures o == OnList(old(State()), buffer.View(), Beyond(buffer), old(buffer.position), length, hasDelta).outcome
    {
      hide DecodeList, ReadDelta;
      var remaining: int := length;
      if hasDelta {
        var _, count, read := ReadDeltaTime(buffer);
        if read.Fail? {
          return read;
        }
        remaining := remaining - count;
      }
      running := 0;
      o := ParseList(buffer, remaining);
    }

    /** The octets from payload type to SSRC; None when the packet is not for this peer. */
    method ParseRtpHeader(buffer: Reader) returns (o: Outcome, mine: bool)
      requires Valid() && buffer.Valid() && buffer.position == 0
      modifies this`remoteSeqNr, buffer`position
      ensures var buf := buffer.View();
              && remoteSeqNr == (if |buf| >= 4 && buf[1] % 0x80 == 0x61 then U16(buf, 2) else old(remoteSeqNr))
              && o == (if |buf| < 2 || (buf[1] % 0x80 == 0x61 && |buf| < 12) then Fail(EndOfBuffer) else Pass)
              && mine == (|buf| >= 12 && buf[1] % 0x80 == 0x61 && U32(buf, 8) == remoteSsrc)
      ensures mine ==> buffer.position == 12
    {
      mine := false;
      var flags := buffer.ReadUint8();
      var id := buffer.ReadUint8();
      if flags.Failure? || id.Failure? {
        return Fail(EndOfBuffer), false;
      }
      if id.value % 0x80 != 0x61 {
        return Pass, false;
      }
      var seqRead := buffer.ReadUint16();
      if seqRead.Failure? {
        return Fail(EndOfBuffer), false;
      }
      remoteSeqNr := seqRead.value;
      var timestamp := buffer.ReadUint32();
      var ssrc := if timestamp.Success? then Success(0 as uint32) else Failure(EndOfBuffer);
      if timestamp.Success? {
        ssrc := buffer.ReadUint32();
      }
      if ssrc.Failure? {
        return Fail(EndOfBuffer), false;
      }
      return Pass, ssrc.value == remoteSsrc;
    }

    /** The flags and the length of the MIDI list. */
    static method ParseListHeader(buffer: Reader) returns (o: Outcome, flags: byte, length: nat)
      requires buffer.Valid() && buffer.position == 12
      modifies buffer`position
      ensures var buf := buffer.View();
              if |buf| < 13 || (buf[12] >= 0x80 && |buf| < 14) then o == Fail(EndOfBuffer)
              else
                && flags == buf[12]
                && buffer.position == (if flags >= 0x80 then 14 else 13)
                && length == (if flags >= 0x80 then flags as int % 0x10 * 0x100 + buf[13] as int
                              else flags as int % 0x10)
                && o == if buffer.position + length > |buf| then Fail(EndOfBuffer) else Pass
    {
      var header := buffer.ReadUint8();
      if header.Failure? {
        return Fail(EndOfBuffer), 0, 0;
      }
      flags := header.value;
      length := flags % 0x10;
      if flags >= 0x80 {
        var low := buffer.ReadUint8();
        if low.Failure? {
          return Fail(EndOfBuffer), 0, 0;
        }
        length := length * 0x100 + low.value;
      }
      o := buffer.CheckEnough(length);
    }

    method ParseMidiPacket(buffer: Reader, journal: Journal) returns (o: Outcome)
      requires Valid() && buffer.Valid() && buffer.position == 0
      modifies this, buffer`position
      ensures Valid()
      ensures Did(ParseMidi(old(State()), buffer.View(), Beyond(buffer), journal), old(log))
      ensures o == ParseMidi(old(State()), buffer.View(), Beyond(buffer), journal).outcome
    {
      hide OnList, U16, U32, JournalSignals;
      var mine, flags, length;
      o, mine := ParseRtpHeader(buffer);
      if o.Fail? || !mine {
        return;
      }
      o, flags, length := ParseListHeader(buffer);
      if o.Fail? {
        return;
      }
      if flags / 0x40 % 2 == 1 {
        o := ParseJournal(journal);
        if o.Fail? {
          return;
        }
      }
      o := ParseSection(buffer, length, flags / 0x20 % 2 == 1);
    }

    method ParseFeedback(buffer: Reader)
      requires buffer.Valid() && IsFeedback(buffer.View())
      modifies this`seqNrAck, buffer`position
      ensures seqNrAck == U16(buffer.View(), 8)
    {
      buffer.position := 8;
      var r := buffer.ReadUint16();
      seqNrAck := r.value;
    }

    method ParseCommandPacket(buffer: Reader, port: Port, now: uint64) returns (o: Outcome)
      requires buffer.Valid() && buffer.size >= 16 && buffer.position == 0
      requires 16 + |localName| != 128
      modifies this, buffer`position
      ensures Did(ParseCommand(old(State()), buffer.View(), port, now), old(log))
      ensures o == ParseCommand(old(State()), buffer.View(), port, now).outcome
    {
      hide OnOk, OnIn, OnCk, OnBy, OnNo;
      var _ := buffer.ReadUint16();
      var command := buffer.ReadUint16();
      if command.value == OK {
        o := ParseCommandOk(buffer, port);
      } else if command.value == IN {
        o := ParseCommandIn(buffer, port);
      } else if command.value == CK {
        o := ParseCommandCk(buffer, port, now);
      } else if command.value == BY {
        o := ParseCommandBy(buffer, port);
      } else if command.value == NO {
        o := ParseCommandNo(buffer, port);
      } else {
        o := Fail(UnknownCommand);
      }
    }

    /** A packet has come in on `port`, at the time `now` of this peer's clock. */
    method OnDataReady(buffer: Reader, port: Port, now: uint64, journal: Journal) returns (o: Outcome)
      requires Valid() && buffer.Valid() && buffer.position == 0
      requires 16 + |localName| != 128
      modifies this, buffer`position
      ensures Valid()
      ensures Did(DataReady(old(State()), buffer.View(), Beyond(buffer), port, now, journal), old(log))
      ensures o == DataReady(old(State()), buffer.View(), Beyond(buffer), port, now, journal).outcome
    {
      hide ParseCommand, ParseMidi;
      KeepsValid(State(), buffer.View(), port, now);
      if buffer.size >= 16 && buffer.mem[0] == 0xFF && buffer.mem[1] == 0xFF {
        o := ParseCommandPacket(buffer, port, now);
      } else if port.MidiPort? {
        o := ParseMidiPacket(buffer, journal);
      } else {
        if buffer.size >= 12 && buffer.mem[0] == 0xFF && buffer.mem[1] == 0xFF
           && buffer.mem[2] == 0x52 && buffer.mem[3] == 0x53 {
          ParseFeedback(buffer);
        }
        o := Pass;
      }
    }
  }

  /** The session commands do not touch the MIDI decoder. */
  lemma {:induction false} KeepsValid(p: Peer, buf: seq<byte>, port: Port, now: uint64)
    requires p.Valid()
    ensures |buf| >= 16 ==> ParseCommand(p, buf, port, now).peer.Valid()
  {
  }

  // ----- reading a command packet back

  lemma {:induction false} CommandReadsBack(command: uint16, a: uint32, tail: seq<byte>)
    ensures var buf := CommandOctets(command, a) + tail;
            && |buf| == 8 + |tail| && buf[8..] == tail
            && buf[0] == 0xFF && buf[1] == 0xFF && U16(buf, 2) == command && U32(buf, 4) == a
  {
    var buf := CommandOctets(command, a) + tail;
    PowersOf256();
    OctetsTwo(0xFFFF);
    BigEndianOfOctets(command, 2);
    BigEndianOfOctets(a, 4);
    assert buf[0..2] == Octets(0xFFFF, 2);
    assert buf[2..4] == Octets(command, 2);
    assert buf[4..8] == Octets(a, 4);
    assert buf[0] == Octets(0xFFFF, 2)[0] && buf[1] == Octets(0xFFFF, 2)[1];
    hide Octets, BigEndian;
  }

  lemma {:induction false} SessionReadsBack(command: uint16, id: uint32, ssrc: uint32, tail: seq<byte>)
    ensures var buf := SessionPacket(command, id, ssrc) + tail;
            && |buf| == 16 + |tail| && IsCommand(buf) && U16(buf, 2) == command
            && U32(buf, 4) == 2 && U32(buf, 8) == id && U32(buf, 12) == ssrc && buf[16..] == tail
  {
    hide CommandOctets, BigEndian, Octets;
    var buf := SessionPacket(command, id, ssrc) + tail;
    assert buf == CommandOctets(command, 2) + (Octets(id, 4) + Octets(ssrc, 4) + tail);
    CommandReadsBack(command, 2, Octets(id, 4) + Octets(ssrc, 4) + tail);
    PowersOf256();
    BigEndianOfOctets(id, 4);
    BigEndianOfOctets(ssrc, 4);
    assert buf[8..12] == Octets(id, 4);
    assert buf[12..16] == Octets(ssrc, 4);
  }

  lemma {:induction false} CkReadsBack(ssrc: uint32, count: byte, ck1: uint64, ck2: uint64, ck3: uint64)
    ensures var buf := CkPacket(ssrc, count, ck1, ck2, ck3);
            && IsCommand(buf) && U16(buf, 2) == CK && U32(buf, 4) == ssrc && buf[8] == count
            && U64(buf, 12) == ck1 && U64(buf, 20) == ck2 && U64(buf, 28) == ck3
  {
    hide CommandOctets, BigEndian, Octets;
    var buf := CkPacket(ssrc, count, ck1, ck2, ck3);
    var tail := [count] + [0] + Octets(0, 2) + Octets(ck1, 8) + Octets(ck2, 8) + Octets(ck3, 8);
    assert buf == CommandOctets(CK, ssrc) + tail;
    CommandReadsBack(CK, ssrc, tail);
    PowersOf256();
    BigEndianOfOctets(ck1, 8);
    BigEndianOfOctets(ck2, 8);
    BigEndianOfOctets(ck3, 8);
    assert buf[12..20] == Octets(ck1, 8);
    assert buf[20..28] == Octets(ck2, 8);
    assert buf[28..36] == Octets(ck3, 8);
  }
}
