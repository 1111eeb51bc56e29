/**
  * Two peers and a network between them that may lose, repeat and reorder packets.
  *
  * Either side is a `Peer` that does what RtpPeers says it does, on octets. The network
  * is the set of all packets that a side has ever sent: any of them may be delivered at
  * any later time and any number of times, or never.
  */
module Session {
  import opened Wrappers
  import opened IoBytes
  import opened MidiList
  import opened RtpPeers
  import opened SysexPath
  import opened PeerRules

  datatype Flying = Flying(buf: seq<byte>, port: Port)

  /**
    * One side: its peer, the time on its own clock, all it has sent, and the times at
    * which it sent a CK0 and at which it answered one.
    */
  datatype Node = Node(peer: Peer, clock: uint64, sent: set<Flying>, asked: set<uint64>, answered: set<uint64>)

  /** `inAt` are the ports at which the acceptor has accepted an IN. */
  datatype World = World(initiator: Node, acceptor: Node, inAt: set<Port>)

  datatype Side = Initiator | Acceptor

  datatype Action =
    | Connect(port: Port)
    | Deliver(flying: Flying, beyond: byte, journal: Journal)
    | AskClock
    | SayGoodbye(port: Port)
    | DisconnectBoth
    | SendPayload(events: seq<byte>, from: nat)
    | Tick(now: uint64)

  datatype Move = Move(side: Side, action: Action)

  function Me(w: World, side: Side): Node {
    if side.Initiator? then w.initiator else w.acceptor
  }

  function Other(w: World, side: Side): Node {
    if side.Initiator? then w.acceptor else w.initiator
  }

  /** What the action makes the peer do. */
  function StepOf(n: Node, a: Action): Step
    requires n.peer.Valid()
  {
    match a
    case Connect(port) => ConnectTo(n.peer, port)
    case Deliver(f, beyond, journal) => DataReady(n.peer, f.buf, beyond, f.port, n.clock, journal)
    case AskClock => SendCk0(n.peer, n.clock)
    case SayGoodbye(port) => SendGoodbye(n.peer, port)
    case DisconnectBoth => Disconnect(n.peer)
    case SendPayload(events, from) => SendMidi(n.peer, events, from, n.clock)
    case Tick(_) => Step(n.peer, [], Pass)
  }

  function SentBy(raised: seq<Signal>): set<Flying> {
    set s | s in raised && s.SendEvent? :: Flying(s.packet, s.port)
  }

  predicate IsCk0(buf: seq<byte>) {
    IsCommand(buf) && U16(buf, 2) == CK && |buf| >= 20 && buf[8] == 0
  }

  predicate IsIn(buf: seq<byte>) {
    IsCommand(buf) && U16(buf, 2) == IN
  }

  function Act(n: Node, a: Action): Node
    requires n.peer.Valid()
  {
    var s := StepOf(n, a);
    Node(s.peer,
         if a.Tick? then a.now else n.clock,
         n.sent + SentBy(s.raised),
         if a.AskClock? then n.asked + {n.clock} else n.asked,
         if a.Deliver? && IsCk0(a.flying.buf) then n.answered + {n.clock} else n.answered)
  }

  /** Only the initiator invites, only what the other side has sent can arrive, and clocks do not go back. */
  predicate Allowed(w: World, m: Move) {
    match m.action
    case Connect(_) => m.side.Initiator?
    case Deliver(f, _, _) => f in Other(w, m.side).sent
    case Tick(now) => now >= Me(w, m.side).clock
    case _ => true
  }

  predicate BothValid(w: World) {
    w.initiator.peer.Valid() && w.acceptor.peer.Valid()
  }

  function Next(w: World, m: Move): World
    requires BothValid(w)
  {
    match m.side
    case Initiator => w.(initiator := Act(w.initiator, m.action))
    case Acceptor =>
      var accepted := m.action.Deliver? && IsIn(m.action.flying.buf) && StepOf(w.acceptor, m.action).outcome.Pass?;
      World(w.initiator,
            Act(w.acceptor, m.action),
            if accepted then w.inAt + {m.action.flying.port} else w.inAt)
  }

  predicate Fresh(n: Node) {
    && n.peer.Valid() && n.peer.status == NOT_CONNECTED && n.peer.remoteSsrc == 0
    && n.sent == {} && n.asked == {} && n.answered == {}
  }

  predicate Start(w: World) {
    Fresh(w.initiator) && Fresh(w.acceptor) && w.inAt == {}
  }

  /** `moves` can happen one after the other from `w`, and lead to `end`. */
  ghost predicate Leads(w: World, moves: seq<Move>, end: World)
    decreases |moves|
  {
    if moves == [] then w == end
    else BothValid(w) && Allowed(w, moves[0]) && Leads(Next(w, moves[0]), moves[1..], end)
  }

  // ----- what every packet in flight says

  /** What is known about a sender when its packets are looked at. */
  datatype Facts = Facts(
    ssrc: uint32, invites: bool, inAt: set<Port>,
    asked: set<uint64>, answered: set<uint64>, theirAsked: set<uint64>, theirAnswered: set<uint64>)

  function FactsOf(w: World, side: Side): Facts {
    var me, other := Me(w, side), Other(w, side);
    Facts(me.peer.localSsrc, side.Initiator?, w.inAt, me.asked, me.answered, other.asked, other.answered)
  }

  /** A clock packet carries times that the right side has put in. */
  predicate CkGood(buf: seq<byte>, f: Facts)
    requires |buf| == 36
  {
    && (buf[8] == 0 ==> U64(buf, 12) in f.asked)
    && (buf[8] == 1 ==> U64(buf, 12) in f.theirAsked && U64(buf, 20) in f.answered)
    && (buf[8] == 2 ==> U64(buf, 20) in f.theirAnswered)
  }

  /**
    * IN comes from the side that invites, OK from the other and only for a port that got an
    * IN, both with the sender's SSRC.
    */
  predicate Good(p: Flying, f: Facts) {
    IsCommand(p.buf) ==>
      var c := U16(p.buf, 2);
      && c != NO
      && (c == IN ==> f.invites && U32(p.buf, 12) == f.ssrc)
      && (c == OK ==> !f.invites && p.port in f.inAt && U32(p.buf, 12) == f.ssrc)
      && (c == CK ==> |p.buf| == 36 && CkGood(p.buf, f))
  }

  predicate AllGood(sent: set<Flying>, f: Facts) {
    forall p | p in sent :: Good(p, f)
  }

  predicate TimesPast(n: Node) {
    (forall t | t in n.asked :: t <= n.clock) && (forall t | t in n.answered :: t <= n.clock)
  }

  /** A side with any port bit set knows the other's SSRC; a bit means that the acceptor has accepted an IN there. */
  predicate Knows(n: Node, other: Node, inAt: set<Port>) {
    && (n.peer.remoteSsrc == 0 || n.peer.remoteSsrc == other.peer.localSsrc)
    && (n.peer.status != NOT_CONNECTED ==> n.peer.remoteSsrc == other.peer.localSsrc)
    && forall port | HasBit(n.peer.status, port) :: port in inAt
  }

  predicate Inv(w: World) {
    && BothValid(w)
    && AllGood(w.initiator.sent, FactsOf(w, Initiator))
    && AllGood(w.acceptor.sent, FactsOf(w, Acceptor))
    && Knows(w.initiator, w.acceptor, w.inAt)
    && Knows(w.acceptor, w.initiator, w.inAt)
    && TimesPast(w.initiator) && TimesPast(w.acceptor)
  }

  // ----- every step keeps the invariant

  predicate RaisesGood(raised: seq<Signal>, f: Facts) {
    forall s | s in raised && s.SendEvent? :: Good(Flying(s.packet, s.port), f)
  }

  predicate Grows(f: Facts, g: Facts) {
    && f.ssrc == g.ssrc && f.invites == g.invites && f.inAt <= g.inAt
    && f.asked <= g.asked && f.answered <= g.answered
    && f.theirAsked <= g.theirAsked && f.theirAnswered <= g.theirAnswered
  }

  lemma {:induction false} GoodGrows(sent: set<Flying>, f: Facts, g: Facts)
    requires AllGood(sent, f) && Grows(f, g)
    ensures AllGood(sent, g)
  {
    hide U16, U32, U64;
  }

  lemma {:induction false} ConnectToIsGood(p: Peer, port: Port, f: Facts)
    requires f.invites && f.ssrc == p.localSsrc
    ensures RaisesGood(ConnectTo(p, port).raised, f)
  {
    SessionReadsBack(IN, p.initiatorId, p.localSsrc, p.localName + [0]);
    assert SessionPacket(IN, p.initiatorId, p.localSsrc) + p.localName + [0]
        == SessionPacket(IN, p.initiatorId, p.localSsrc) + (p.localName + [0]);
    hide SessionPacket, U16, U32, U64;
  }

  lemma {:induction false} GoodbyeIsGood(p: Peer, port: Port, f: Facts)
    ensures RaisesGood(SendGoodbye(p, port).raised, f)
    ensures var q := SendGoodbye(p, port).peer;
            && q == p.(status := q.status) && (q.status != NOT_CONNECTED ==> p.status != NOT_CONNECTED)
            && forall at :: HasBit(q.status, at) ==> HasBit(p.status, at)
  {
    var packet := SessionPacket(BY, p.initiatorId, p.localSsrc);
    SessionReadsBack(BY, p.initiatorId, p.localSsrc, []);
    assert packet + [] == packet;
    hide SessionPacket, U16, U32, U64;
  }

  lemma {:induction false} DisconnectIsGood(p: Peer, f: Facts)
    ensures RaisesGood(Disconnect(p).raised, f)
  {
    hide SendGoodbye;
    GoodbyeIsGood(p, MidiPort, f);
    GoodbyeIsGood(p, ControlPort, f);
    GoodbyeIsGood(SendGoodbye(p, MidiPort).peer, ControlPort, f);
  }

  lemma {:induction false} AskIsGood(p: Peer, now: uint64, f: Facts)
    requires now in f.asked
    ensures RaisesGood(SendCk0(p, now).raised, f)
  {
    CkReadsBack(p.localSsrc, 0, now, 0, 0);
    hide CkPacket, U16, U32, U64;
  }

  lemma {:induction false} PayloadIsGood(p: Peer, events: seq<byte>, from: nat, now: uint64, f: Facts)
    ensures RaisesGood(SendMidi(p, events, from, now).raised, f)
    ensures var q := SendMidi(p, events, from, now).peer; q == p.(seqNr := q.seqNr)
  {
    if p.status == CONNECTED {
      FramedHeader(p.localSsrc, (p.seqNr + 1) % 0x1_0000, now % 0x1_0000_0000, events);
    }
    hide Framed, U16, U32, U64;
  }

  // ----- what a delivered packet does

  /** `n` gets a packet from `other` that says what it should. */
  lemma {:induction false} OkKeeps(p: Peer, buf: seq<byte>, port: Port, f: Facts, inAt: set<Port>, theirs: uint32)
    requires |buf| >= 16 && U32(buf, 12) == theirs && port in inAt
    requires p.remoteSsrc in {0, theirs} && (p.status != NOT_CONNECTED ==> p.remoteSsrc == theirs)
    requires forall at | HasBit(p.status, at) :: at in inAt
    ensures var s := OnOk(p, buf, port);
            && RaisesGood(s.raised, f) && s.peer.localSsrc == p.localSsrc
            && s.peer.remoteSsrc in {0, theirs} && (s.peer.status != NOT_CONNECTED ==> s.peer.remoteSsrc == theirs)
            && (forall at | HasBit(s.peer.status, at) :: at in inAt)
  {
    hide U16, U32, U64, Str0At;
  }

  lemma {:induction false} InKeeps(p: Peer, buf: seq<byte>, port: Port, f: Facts, inAt: set<Port>, theirs: uint32)
    requires |buf| >= 16 && U32(buf, 12) == theirs
    requires p.remoteSsrc in {0, theirs} && (p.status != NOT_CONNECTED ==> p.remoteSsrc == theirs)
    requires forall at | HasBit(p.status, at) :: at in inAt
    requires f.inAt == (if OnIn(p, buf, port).outcome.Pass? then inAt + {port} else inAt)
    requires f.ssrc == p.localSsrc && !f.invites
    ensures var s := OnIn(p, buf, port);
            && RaisesGood(s.raised, f) && s.peer.localSsrc == p.localSsrc
            && s.peer.remoteSsrc == theirs
            && (forall at | HasBit(s.peer.status, at) :: at in f.inAt)
  {
    var id := U32(buf, 8);
    SessionReadsBack(OK, id, p.localSsrc, p.localName + [0]);
    assert SessionPacket(OK, id, p.localSsrc) + p.localName + [0]
        == SessionPacket(OK, id, p.localSsrc) + (p.localName + [0]);
    hide SessionPacket, U16, U32, U64, Str0At;
  }

  lemma {:induction false} ByKeeps(p: Peer, buf: seq<byte>, port: Port, f: Facts)
    requires |buf| >= 16
    ensures var s := OnBy(p, buf, port);
            && RaisesGood(s.raised, f)
            && s.peer == p.(status := s.peer.status, initiatorId := s.peer.initiatorId)
            && (s.peer.status != NOT_CONNECTED ==> p.status != NOT_CONNECTED)
            && forall at :: HasBit(s.peer.status, at) ==> HasBit(p.status, at)
  {
    hide U16, U32, U64;
  }

  /** The answer to count 0 hands on the first time, and adds the time of this side. */
  lemma {:induction false} FirstAnswerIsGood(
    ssrc: uint32, buf: seq<byte>, port: Port, now: uint64, came: Facts, f: Facts)
    requires |buf| == 36 && CkGood(buf, came) && buf[8] == 0
    requires came.asked <= f.theirAsked && now in f.answered
    ensures Good(Flying(CkPacket(ssrc, 1, U64(buf, 12), now, 0), port), f)
  {
    CkReadsBack(ssrc, 1, U64(buf, 12), now, 0);
    hide CkPacket, U16, U32, U64;
  }

  /** The answer to count 1 hands on both times. */
  lemma {:induction false} SecondAnswerIsGood(
    ssrc: uint32, buf: seq<byte>, port: Port, now: uint64, came: Facts, f: Facts)
    requires |buf| == 36 && CkGood(buf, came) && buf[8] == 1
    requires came.theirAsked <= f.asked && came.answered <= f.theirAnswered
    ensures Good(Flying(CkPacket(ssrc, 2, U64(buf, 12), U64(buf, 20), now), port), f)
  {
    CkReadsBack(ssrc, 2, U64(buf, 12), U64(buf, 20), now);
    hide CkPacket, U16, U32, U64;
  }

  lemma {:induction false} CkKeeps(p: Peer, buf: seq<byte>, port: Port, now: uint64, came: Facts, f: Facts)
    requires |buf| == 36 && CkGood(buf, came)
    requires came.asked <= f.theirAsked && came.theirAsked <= f.asked && came.answered <= f.theirAnswered
    requires buf[8] == 0 ==> now in f.answered
    ensures var s := OnCk(p, buf, port, now);
            && RaisesGood(s.raised, f)
            && s.peer == p.(latency := s.peer.latency, waitingCk := s.peer.waitingCk)
  {
    if buf[8] == 0 {
      FirstAnswerIsGood(p.localSsrc, buf, port, now, came, f);
    } else if buf[8] == 1 {
      SecondAnswerIsGood(p.localSsrc, buf, port, now, came, f);
    }
    hide CkPacket, CkGood, Good, U16, U32, U64, Minus64;
  }

  lemma {:induction false} MidiEventsSendNothing(ms: seq<Message>)
    ensures forall s | s in MidiEvents(ms) :: s.MidiEvent?
  {
  }

  lemma {:induction false} ListKeeps(p: Peer, buf: seq<byte>, beyond: byte, pos: nat, length: nat, hasDelta: bool)
    requires p.Valid() && 1 <= pos
    ensures var s := OnList(p, buf, beyond, pos, length, hasDelta);
            && (forall x | x in s.raised :: x.MidiEvent?)
            && s.peer == p.(running := s.peer.running, sysex := s.peer.sysex) && s.peer.Valid()
  {
    hide DecodeList, ReadDelta, MidiEvents;
    var delta := if hasDelta then ReadDelta(buf, pos) else Success(Delta(0, pos));
    if delta.Success? {
      var start := delta.value.end;
      var decoded := DecodeList(buf, beyond, start, length - (start - pos), Decoder(0, p.sysex, []));
      MidiEventsSendNothing(decoded.decoder.events);
    }
  }

  lemma {:induction false} MidiKeeps(p: Peer, buf: seq<byte>, beyond: byte, journal: Journal, f: Facts)
    requires p.Valid()
    ensures var s := ParseMidi(p, buf, beyond, journal);
            && RaisesGood(s.raised, f) && s.peer.Valid()
            && s.peer == p.(running := s.peer.running, sysex := s.peer.sysex, remoteSeqNr := s.peer.remoteSeqNr)
  {
    hide OnList, U16, U32, U64, MidiEvents, FeedbackPacket, Good;
    MidiEventsSendNothing(journal.events);
    FeedbackIsGood(p.localSsrc, journal.seqNr, f);
    if |buf| >= 14 || (|buf| >= 13 && buf[12] < 0x80) {
      var p1, pos, length := p.(remoteSeqNr := U16(buf, 2)), ListStart(buf), ListLength(buf);
      var hasDelta := buf[12] / 0x20 % 2 == 1;
      ListKeeps(p1, buf, beyond, pos, length, hasDelta);
      ListKeeps(p1.(remoteSeqNr := journal.seqNr), buf, beyond, pos, length, hasDelta);
    }
  }

  lemma {:induction false} FeedbackIsGood(ssrc: uint32, seqNr: uint16, f: Facts)
    ensures Good(Flying(FeedbackPacket(ssrc, seqNr), ControlPort), f)
  {
    assert |FeedbackPacket(ssrc, seqNr)| == 12;
  }

  /** What the receiving side keeps, as far as status, SSRC and its own packets are concerned. */
  predicate Kept(p: Peer, s: Step, f: Facts, theirs: uint32) {
    && RaisesGood(s.raised, f) && s.peer.Valid() && s.peer.localSsrc == p.localSsrc
    && s.peer.remoteSsrc in {0, theirs} && (s.peer.status != NOT_CONNECTED ==> s.peer.remoteSsrc == theirs)
    && forall at | HasBit(s.peer.status, at) :: at in f.inAt
  }

  /** The facts about both sides match: what one calls mine the other calls theirs. */
  predicate Opposite(f: Facts, came: Facts) {
    && f.invites != came.invites && came.inAt <= f.inAt
    && came.asked <= f.theirAsked && came.theirAsked <= f.asked && came.answered <= f.theirAnswered
  }

  lemma {:induction false} CommandKeeps(p: Peer, buf: seq<byte>, port: Port, now: uint64, came: Facts, f: Facts)
    requires p.Valid() && p.localSsrc == f.ssrc && IsCommand(buf) && Good(Flying(buf, port), came) && Opposite(f, came)
    requires p.remoteSsrc in {0, came.ssrc} && (p.status != NOT_CONNECTED ==> p.remoteSsrc == came.ssrc)
    requires forall at | HasBit(p.status, at) :: at in came.inAt
    requires f.inAt == (if IsIn(buf) && OnIn(p, buf, port).outcome.Pass? then came.inAt + {port} else came.inAt)
    requires IsCk0(buf) ==> now in f.answered
    ensures Kept(p, ParseCommand(p, buf, port, now), f, came.ssrc)
  {
    hide OnOk, OnIn, OnBy, OnCk, U16, U32, U64;
    KeepsValid(p, buf, port, now);
    var c := U16(buf, 2);
    if c == OK {
      OkKeeps(p, buf, port, f, came.inAt, came.ssrc);
    } else if c == IN {
      InKeeps(p, buf, port, f, came.inAt, came.ssrc);
    } else if c == BY {
      ByKeeps(p, buf, port, f);
    } else if c == CK {
      CkKeeps(p, buf, port, now, came, f);
    }
  }

  lemma {:induction false} DeliverKeeps(
    p: Peer, x: Flying, beyond: byte, now: uint64, journal: Journal, came: Facts, f: Facts)
    requires p.Valid() && p.localSsrc == f.ssrc && Good(x, came) && Opposite(f, came)
    requires p.remoteSsrc in {0, came.ssrc} && (p.status != NOT_CONNECTED ==> p.remoteSsrc == came.ssrc)
    requires forall at | HasBit(p.status, at) :: at in came.inAt
    requires f.inAt == (if IsIn(x.buf) && OnIn(p, x.buf, x.port).outcome.Pass? then came.inAt + {x.port} else came.inAt)
    requires IsCk0(x.buf) ==> now in f.answered
    ensures Kept(p, DataReady(p, x.buf, beyond, x.port, now, journal), f, came.ssrc)
  {
    hide ParseCommand, ParseMidi, U16, U32, U64, OnIn;
    if IsCommand(x.buf) {
      assert x == Flying(x.buf, x.port);
      CommandKeeps(p, x.buf, x.port, now, came, f);
    } else {
      MidiKeeps(p, x.buf, beyond, journal, f);
    }
  }

  /** Any action of one side, seen with the facts that hold after it. */
  lemma {:induction false} ActionKeeps(w: World, m: Move)
    requires Inv(w) && Allowed(w, m)
    ensures BothValid(Next(w, m))
    ensures var p, s := Me(w, m.side).peer, StepOf(Me(w, m.side), m.action);
            Kept(p, s, FactsOf(Next(w, m), m.side).(ssrc := p.localSsrc), Other(w, m.side).peer.localSsrc)
  {
    hide DataReady, ConnectTo, Disconnect, SendGoodbye, SendMidi, SendCk0, Good, OnIn, IsIn, IsCk0, U16, U32;
    var n, other, a := Me(w, m.side), Other(w, m.side), m.action;
    var w' := Next(w, m);
    var f := FactsOf(w', m.side).(ssrc := n.peer.localSsrc);
    match a
    case Connect(port) =>
      ConnectToIsGood(n.peer, port, f);
      ConnectKeepsPeer(n.peer, port);
    case Deliver(x, beyond, journal) =>
      var came := FactsOf(w, if m.side.Initiator? then Acceptor else Initiator);
      InOnlyFromInitiator(x, came);
      DeliverMeansOnIn(n.peer, x, beyond, n.clock, journal);
      DeliverKeeps(n.peer, x, beyond, n.clock, journal, came, f);
    case AskClock =>
      AskIsGood(n.peer, n.clock, f);
      AskKeepsPeer(n.peer, n.clock);
    case SayGoodbye(port) =>
      GoodbyeIsGood(n.peer, port, f);
    case DisconnectBoth =>
      DisconnectIsGood(n.peer, f);
      DisconnectClears(n.peer);
    case SendPayload(events, from) =>
      PayloadIsGood(n.peer, events, from, n.clock, f);
    case Tick(_) =>
  }

  lemma {:induction false} ConnectKeepsPeer(p: Peer, port: Port)
    ensures ConnectTo(p, port).peer == p
  {
  }

  lemma {:induction false} AskKeepsPeer(p: Peer, now: uint64)
    ensures SendCk0(p, now).peer == p.(waitingCk := true)
  {
  }

  lemma {:induction false} DisconnectClears(p: Peer)
    ensures var q := Disconnect(p).peer;
            q.status == NOT_CONNECTED && q.remoteSsrc == 0 && q.localSsrc == p.localSsrc
            && q.running == p.running && q.sysex == p.sysex
  {
  }

  lemma {:induction false} InOnlyFromInitiator(x: Flying, came: Facts)
    requires Good(x, came)
    ensures IsIn(x.buf) ==> came.invites
  {
  }

  lemma {:induction false} DeliverMeansOnIn(p: Peer, x: Flying, beyond: byte, now: uint64, journal: Journal)
    requires p.Valid()
    ensures IsIn(x.buf) ==> DataReady(p, x.buf, beyond, x.port, now, journal) == OnIn(p, x.buf, x.port)
  {
    hide OnIn, ParseMidi;
  }

  lemma {:induction false} StartKeeps(w: World)
    requires Start(w)
    ensures Inv(w)
  {
    assert forall at :: !HasBit(NOT_CONNECTED, at);
  }

  lemma {:induction false} TimesStayPast(n: Node, a: Action)
    requires n.peer.Valid() && TimesPast(n) && (a.Tick? ==> n.clock <= a.now)
    ensures TimesPast(Act(n, a))
  {
    hide StepOf, IsCk0;
  }

  /** What was sent before is still true of the sender, and so is what is sent now. */
  lemma {:induction false} SentStaysGood(w: World, m: Move)
    requires Inv(w) && Allowed(w, m)
    ensures AllGood(Next(w, m).initiator.sent, FactsOf(Next(w, m), Initiator))
    ensures AllGood(Next(w, m).acceptor.sent, FactsOf(Next(w, m), Acceptor))
  {
    ActionKeeps(w, m);
    hide StepOf, Good, IsIn, IsCk0, Knows, TimesPast;
    var w', s := Next(w, m), StepOf(Me(w, m.side), m.action);
    GoodGrows(w.initiator.sent, FactsOf(w, Initiator), FactsOf(w', Initiator));
    GoodGrows(w.acceptor.sent, FactsOf(w, Acceptor), FactsOf(w', Acceptor));
    assert AllGood(SentBy(s.raised), FactsOf(w', m.side));
  }

  lemma {:induction false} NextKeeps(w: World, m: Move)
    requires Inv(w) && Allowed(w, m)
    ensures Inv(Next(w, m))
  {
    ActionKeeps(w, m);
    SentStaysGood(w, m);
    TimesStayPast(Me(w, m.side), m.action);
    hide StepOf, AllGood, TimesPast, RaisesGood, IsIn, IsCk0;
  }

  /** Safety over whole runs: whatever the network does, the invariant holds. */
  lemma {:induction false} RunKeeps(w: World, moves: seq<Move>, end: World)
    requires Inv(w) && Leads(w, moves, end)
    ensures Inv(end)
    decreases |moves|
  {
    hide Inv, Allowed, Next, BothValid;
    if moves != [] {
      NextKeeps(w, moves[0]);
      RunKeeps(Next(w, moves[0]), moves[1..], end);
    }
  }

  /**
    * In every reachable state a side with any port bit set knows the other's SSRC, and its
    * bits stand for ports where an IN was accepted.
    */
  lemma {:induction false} ConnectedSidesKnowEachOther(start: World, moves: seq<Move>, w: World, side: Side)
    requires Start(start) && Leads(start, moves, w)
    ensures var me, other := Me(w, side).peer, Other(w, side).peer;
            && (me.status != NOT_CONNECTED ==> me.remoteSsrc == other.localSsrc)
            && (forall port | HasBit(me.status, port) :: port in w.inAt)
  {
    hide Leads, AllGood, TimesPast, Start;
    StartKeeps(start);
    RunKeeps(start, moves, w);
  }

  /**
    * When a reachable state has both sides connected, then the other side makes of a list
    * that one of them sends what it means, if and only if AsMeant says so of its commands:
    * of commands that are complete in themselves, if and only if its decoder knows them all.
    */
  lemma {:induction false} ConnectedSidesHearEachOther(
    start: World, moves: seq<Move>, w: World, side: Side, entries: seq<Entry>, beyond: byte, journal: Journal)
    requires Start(start) && Leads(start, moves, w)
    requires w.initiator.peer.status == CONNECTED && w.acceptor.peer.status == CONNECTED
    requires WellFormedEntries(entries, 0) && |EncodeEntries(entries)| <= 4094
    requires Other(w, side).peer.Valid()
    ensures var me, other, cs := Me(w, side), Other(w, side).peer, Commands(entries);
            var sent := SendMidi(me.peer, EncodeEntries(entries), 0, me.clock);
            && |sent.raised| == 1 && sent.raised[0].SendEvent? && sent.raised[0].port == MidiPort
            && var s := DataReady(other, sent.raised[0].packet, beyond, MidiPort, Other(w, side).clock, journal);
            var r := Receiver(Pending(other), []);
            && s.peer.Valid()
            && (s.outcome == Pass && Pending(s.peer) == MeanAll(r, cs).pending
                && s.raised == MidiEvents(MeanAll(r, cs).events)
                <==> AsMeant(r, cs))
            && (Pending(other).None? && (forall c | c in cs :: IsWhole(c)) ==>
                  (s.raised == MidiEvents(Messages(cs)) <==> forall c | c in cs :: Known(c)))
  {
    hide Known, IsWhole, AsMeant, MeanAll, Leads, Inv, Start, WellFormedEntries, EncodeEntries;
    hide ParseMidi, Framed, CarriesList, DataReady, MidiEvents, Messages, HasJournal;
    ConnectedSidesKnowEachOther(start, moves, w, if side.Initiator? then Acceptor else Initiator);
    var me, other := Me(w, side), Other(w, side).peer;
    var payload, seqNr := EncodeEntries(entries), (me.peer.seqNr + 1) % 0x1_0000;
    var timestamp := me.clock % 0x1_0000_0000;
    FramedCarriesList(me.peer.localSsrc, seqNr, timestamp, entries);
    FramedHeader(me.peer.localSsrc, seqNr, timestamp, payload);
    var packet := Framed(me.peer.localSsrc, seqNr, timestamp, payload);
    MidiIsDispatched(other, packet, beyond, Other(w, side).clock, journal);
    PacketReceivedAsMeantIff(other, packet, beyond, journal, List([], entries));
    if Pending(other).None? && forall c | c in Commands(entries) :: IsWhole(c) {
      CompleteListRaisesItsMessages(other, packet, beyond, journal, List([], entries));
    }
  }

  lemma {:induction false} MidiIsDispatched(p: Peer, buf: seq<byte>, beyond: byte, now: uint64, journal: Journal)
    requires p.Valid() && !IsCommand(buf)
    ensures DataReady(p, buf, beyond, MidiPort, now, journal) == ParseMidi(p, buf, beyond, journal)
  {
    hide ParseMidi;
  }

  // ----- a run that connects

  lemma {:induction false} LeadsAppend(w: World, a: seq<Move>, mid: World, b: seq<Move>, end: World)
    requires Leads(w, a, mid) && Leads(mid, b, end)
    ensures Leads(w, a + b, end)
    decreases |a|
  {
    hide Next, Allowed, BothValid;
    if a == [] {
      assert a + b == b;
    } else {
      assert (a + b)[0] == a[0] && (a + b)[1..] == a[1..] + b;
      LeadsAppend(Next(w, a[0]), a[1..], mid, b, end);
    }
  }

  lemma {:induction false} LeadsOne(w: World, m: Move)
    requires BothValid(w) && Allowed(w, m)
    ensures Leads(w, [m], Next(w, m))
  {
    hide Next, Allowed, BothValid;
    assert [m][1..] == [];
    assert Leads(Next(w, m), [], Next(w, m));
  }

  predicate ShortNames(w: World) {
    |w.initiator.peer.localName| <= 1483 && |w.acceptor.peer.localName| <= 111
  }

  lemma {:induction false} InviteSends(w: World, port: Port) returns (x: Flying, w1: World)
    requires BothValid(w) && ShortNames(w)
    ensures Leads(w, [Move(Initiator, Connect(port))], w1)
    ensures x.port == port && x in w1.initiator.sent && |x.buf| >= 16
    ensures IsCommand(x.buf) && U16(x.buf, 2) == IN && U32(x.buf, 4) == 2
    ensures U32(x.buf, 8) == w.initiator.peer.initiatorId && U32(x.buf, 12) == w.initiator.peer.localSsrc
    ensures w1.acceptor == w.acceptor && w1.initiator.peer == w.initiator.peer
  {
    var p, m := w.initiator.peer, Move(Initiator, Connect(port));
    LeadsOne(w, m);
    w1 := Next(w, m);
    SessionReadsBack(IN, p.initiatorId, p.localSsrc, p.localName + [0]);
    var buf := SessionPacket(IN, p.initiatorId, p.localSsrc) + p.localName + [0];
    assert buf == SessionPacket(IN, p.initiatorId, p.localSsrc) + (p.localName + [0]);
    hide Leads, SessionPacket, U16, U32;
    x := Flying(buf, port);
    assert SendEvent(buf, port) in ConnectTo(p, port).raised;
    assert x in w1.initiator.sent;
  }

  lemma {:induction false} InviteAnswered(w: World, x: Flying) returns (y: Flying, w2: World)
    requires BothValid(w) && ShortNames(w) && x in w.initiator.sent && |x.buf| >= 16
    requires IsCommand(x.buf) && U16(x.buf, 2) == IN && U32(x.buf, 4) == 2
    ensures Leads(w, [Move(Acceptor, Deliver(x, 0, NO_JOURNAL))], w2)
    ensures y.port == x.port && y in w2.acceptor.sent && |y.buf| >= 16
    ensures IsCommand(y.buf) && U16(y.buf, 2) == OK && U32(y.buf, 4) == 2
    ensures U32(y.buf, 8) == U32(x.buf, 8) && U32(y.buf, 12) == w.acceptor.peer.localSsrc
    ensures w2.initiator == w.initiator && BothValid(w2)
    ensures var p := w2.acceptor.peer;
            && p.status == SetBit(w.acceptor.peer.status, x.port) && p.remoteSsrc == U32(x.buf, 12)
            && p.localSsrc == w.acceptor.peer.localSsrc && p.localName == w.acceptor.peer.localName
  {
    var p, m := w.acceptor.peer, Move(Acceptor, Deliver(x, 0, NO_JOURNAL));
    LeadsOne(w, m);
    w2 := Next(w, m);
    var id := U32(x.buf, 8);
    SessionReadsBack(OK, id, p.localSsrc, p.localName + [0]);
    var buf := SessionPacket(OK, id, p.localSsrc) + p.localName + [0];
    assert buf == SessionPacket(OK, id, p.localSsrc) + (p.localName + [0]);
    DeliverMeansOnIn(p, x, 0, w.acceptor.clock, NO_JOURNAL);
    hide Leads, SessionPacket, U16, U32, Str0At, DataReady, SetBit;
    y := Flying(buf, x.port);
    assert SendEvent(buf, x.port) in OnIn(p, x.buf, x.port).raised;
    assert y in w2.acceptor.sent;
  }

  lemma {:induction false} AnswerArrives(w: World, y: Flying) returns (w3: World)
    requires BothValid(w) && y in w.acceptor.sent && |y.buf| >= 16 && w.initiator.peer.status != CONNECTED
    requires IsCommand(y.buf) && U16(y.buf, 2) == OK && U32(y.buf, 4) == 2
    requires U32(y.buf, 8) == w.initiator.peer.initiatorId
    ensures Leads(w, [Move(Initiator, Deliver(y, 0, NO_JOURNAL))], w3)
    ensures w3.acceptor == w.acceptor && BothValid(w3)
    ensures var p, q := w3.initiator.peer, w.initiator.peer;
            p == q.(status := SetBit(q.status, y.port), remoteSsrc := U32(y.buf, 12), remoteName := p.remoteName)
  {
    var m := Move(Initiator, Deliver(y, 0, NO_JOURNAL));
    LeadsOne(w, m);
    w3 := Next(w, m);
    hide Leads, U16, U32, Str0At, SetBit;
  }

  /** One IN and its OK set the bit of the port on both sides. */
  lemma {:induction false} InvitationConnectsPort(w: World, port: Port) returns (moves: seq<Move>, end: World)
    requires BothValid(w) && ShortNames(w) && w.initiator.peer.status != CONNECTED
    ensures Leads(w, moves, end) && BothValid(end) && ShortNames(end)
    ensures end.initiator.peer.status == SetBit(w.initiator.peer.status, port)
    ensures end.acceptor.peer.status == SetBit(w.acceptor.peer.status, port)
    ensures end.initiator.peer.remoteSsrc == end.acceptor.peer.localSsrc
    ensures end.acceptor.peer.remoteSsrc == end.initiator.peer.localSsrc
  {
    hide Leads, U16, U32, SetBit;
    var x, w1 := InviteSends(w, port);
    var y, w2 := InviteAnswered(w1, x);
    var w3 := AnswerArrives(w2, y);
    var a, b := Move(Initiator, Connect(port)), Move(Acceptor, Deliver(x, 0, NO_JOURNAL));
    var c := Move(Initiator, Deliver(y, 0, NO_JOURNAL));
    LeadsAppend(w, [a], w1, [b], w2);
    LeadsAppend(w, [a] + [b], w2, [c], w3);
    moves, end := [a] + [b] + [c], w3;
  }

  /** The handshake on both ports, in either order, ends with both sides connected. */
  lemma {:induction false} HandshakeConnects(start: World, first: Port) returns (moves: seq<Move>, end: World)
    requires Start(start) && ShortNames(start)
    ensures Leads(start, moves, end)
    ensures BothValid(end)
    ensures end.initiator.peer.status == CONNECTED && end.acceptor.peer.status == CONNECTED
    ensures end.initiator.peer.remoteSsrc == end.acceptor.peer.localSsrc
    ensures end.acceptor.peer.remoteSsrc == end.initiator.peer.localSsrc
  {
    hide Leads;
    var second := if first.MidiPort? then ControlPort else MidiPort;
    var m1, mid := InvitationConnectsPort(start, first);
    var m2, last := InvitationConnectsPort(mid, second);
    LeadsAppend(start, m1, mid, m2, last);
    moves, end := m1 + m2, last;
  }

  // ----- a run that disconnects

  /** A side leaves: its two BYs are on their way, and it is not connected any more. */
  lemma {:induction false} LeavingSends(w: World, side: Side) returns (x: Flying, y: Flying, w1: World)
    requires BothValid(w) && Me(w, side).peer.status == CONNECTED
    ensures Leads(w, [Move(side, DisconnectBoth)], w1) && BothValid(w1) && Other(w1, side) == Other(w, side)
    ensures Me(w1, side).peer.status == NOT_CONNECTED
    ensures x.port == MidiPort && x in Me(w1, side).sent
    ensures SaysBy(SendEvent(x.buf, MidiPort), Me(w, side).peer, MidiPort)
    ensures y.port == ControlPort && y in Me(w1, side).sent
    ensures SaysBy(SendEvent(y.buf, ControlPort), Me(w, side).peer, ControlPort)
  {
    hide Leads, SaysBy, Disconnect, DataReady;
    var p, m := Me(w, side).peer, Move(side, DisconnectBoth);
    LeadsOne(w, m);
    w1 := Next(w, m);
    DisconnectSays(p);
    x, y := TwoBys(p);
  }

  lemma {:induction false} TwoBys(p: Peer) returns (x: Flying, y: Flying)
    requires p.status == CONNECTED
    ensures x in SentBy(Disconnect(p).raised) && y in SentBy(Disconnect(p).raised)
    ensures x.port == MidiPort && SaysBy(SendEvent(x.buf, MidiPort), p, MidiPort)
    ensures y.port == ControlPort && SaysBy(SendEvent(y.buf, ControlPort), p, ControlPort)
  {
    hide SaysBy, Disconnect;
    DisconnectSays(p);
    var raised := Disconnect(p).raised;
    assert PortsOf(p.status) == [MidiPort, ControlPort];
    x, y := BySent(raised[0], p, MidiPort), BySent(raised[1], p, ControlPort);
    assert raised[0] in raised && raised[1] in raised;
  }

  function BySent(s: Signal, p: Peer, port: Port): (x: Flying)
    requires SaysBy(s, p, port)
    ensures s == SendEvent(x.buf, x.port) && x.port == port
  {
    Flying(s.packet, s.port)
  }

  /** A BY arrives at the side that is bound to its sender: the bit of the port goes. */
  lemma {:induction false} ByIsHeard(w: World, side: Side, x: Flying, sender: Peer) returns (w1: World)
    requires BothValid(w) && x in Me(w, side).sent && SaysBy(SendEvent(x.buf, x.port), sender, x.port)
    requires Other(w, side).peer.remoteSsrc == sender.localSsrc
    ensures Leads(w, [Move(if side.Initiator? then Acceptor else Initiator, Deliver(x, 0, NO_JOURNAL))], w1)
    ensures BothValid(w1) && Me(w1, side) == Me(w, side)
    ensures Other(w1, side).peer.remoteSsrc == sender.localSsrc
    ensures forall q :: HasBit(Other(w1, side).peer.status, q) <==> HasBit(Other(w, side).peer.status, q) && q != x.port
  {
    var m := Move(if side.Initiator? then Acceptor else Initiator, Deliver(x, 0, NO_JOURNAL));
    LeadsOne(w, m);
    w1 := Next(w, m);
    var p := Other(w, side).peer;
    ByIsDispatched(p, x.buf, 0, x.port, Other(w, side).clock, NO_JOURNAL);
    ByDisconnectsIff(p, x.buf, x.port);
    hide Leads, U16, U32, DataReady;
  }

  lemma {:induction false} ByIsDispatched(
    p: Peer, buf: seq<byte>, beyond: byte, port: Port, now: uint64, journal: Journal)
    requires p.Valid() && IsCommand(buf) && U16(buf, 2) == BY
    ensures DataReady(p, buf, beyond, port, now, journal) == OnBy(p, buf, port)
  {
    hide OnBy;
  }

  /**
    * When one of two connected sides leaves and its packets arrive, in either order, both
    * sides end up not connected.
    */
  lemma {:induction false} GoodbyeDisconnects(
    start: World, side: Side, first: Port) returns (moves: seq<Move>, connected: World, rest: seq<Move>, end: World)
    requires Start(start) && ShortNames(start)
    ensures Leads(start, moves, connected) && Leads(connected, rest, end)
    ensures connected.initiator.peer.status == CONNECTED && connected.acceptor.peer.status == CONNECTED
    ensures end.initiator.peer.status == NOT_CONNECTED && end.acceptor.peer.status == NOT_CONNECTED
  {
    hide Leads, SaysBy;
    moves, connected := HandshakeConnects(start, MidiPort);
    var other := if side.Initiator? then Acceptor else Initiator;
    var p := Me(connected, side).peer;
    var x, y, w1 := LeavingSends(connected, side);
    var a, b := if first.MidiPort? then x else y, if first.MidiPort? then y else x;
    var w2 := ByIsHeard(w1, side, a, p);
    var w3 := ByIsHeard(w2, side, b, p);
    var leave := Move(side, DisconnectBoth);
    var hearA, hearB := Move(other, Deliver(a, 0, NO_JOURNAL)), Move(other, Deliver(b, 0, NO_JOURNAL));
    LeadsAppend(connected, [leave], w1, [hearA], w2);
    LeadsAppend(connected, [leave] + [hearA], w2, [hearB], w3);
    rest, end := [leave] + [hearA] + [hearB], w3;
    assert !HasBit(Other(end, side).peer.status, MidiPort) && !HasBit(Other(end, side).peer.status, ControlPort);
  }

  // ----- the clock exchange

  /** The time stamp that a clock packet is measured from. */
  function Since(buf: seq<byte>): uint64
    requires |buf| >= 28
  {
    if buf[8] == 1 then U64(buf, 12) else U64(buf, 20)
  }

  lemma {:induction false} ClockPacketTimes(w: World, side: Side, x: Flying)
    requires Inv(w) && x in Other(w, side).sent && IsCommand(x.buf) && U16(x.buf, 2) == CK
    ensures var me := Me(w, side);
            && |x.buf| == 36
            && (x.buf[8] == 1 ==> Since(x.buf) in me.asked && Since(x.buf) <= me.clock)
            && (x.buf[8] == 2 ==> Since(x.buf) in me.answered && Since(x.buf) <= me.clock)
  {
    assert Good(x, FactsOf(w, if side.Initiator? then Acceptor else Initiator));
    hide U16, U32, U64;
  }

  /**
    * Whatever a reachable side measures is the time that has passed on its own clock since
    * it sent the CK0, or answered the one, that the measurement is about; the unsigned
    * subtraction does not wrap, and the other side's clock does not matter.
    */
  lemma {:induction false} LatencyIsElapsedTime(start: World, moves: seq<Move>, w: World, m: Move, latency: uint64)
    requires Start(start) && Leads(start, moves, w)
    requires m.action.Deliver? && Allowed(w, m) && Me(w, m.side).peer.Valid()
    requires CkEvent(latency) in StepOf(Me(w, m.side), m.action).raised
    ensures var me, buf := Me(w, m.side), m.action.flying.buf;
            && |buf| >= 28
            && Since(buf) in (if buf[8] == 1 then me.asked else me.answered)
            && Since(buf) <= me.clock && latency == me.clock - Since(buf)
  {
    hide Leads, Start, Inv, DataReady, Minus64;
    StartKeeps(start);
    RunKeeps(start, moves, w);
    var me, x := Me(w, m.side), m.action.flying;
    OnlyCkMeasures(me.peer, x, m.action.beyond, me.clock, m.action.journal, latency);
    ClockPacketTimes(w, m.side, x);
    NoWrap(me.clock, Since(x.buf));
  }

  /** A peer asks: its CK0 is on its way. */
  lemma {:induction false} AskSends(w: World) returns (x: Flying, w1: World)
    requires BothValid(w)
    ensures Leads(w, [Move(Initiator, AskClock)], w1) && BothValid(w1) && w1.acceptor == w.acceptor
    ensures x in w1.initiator.sent && IsCommand(x.buf) && U16(x.buf, 2) == CK && |x.buf| == 36 && x.buf[8] == 0
  {
    var p, m := w.initiator.peer, Move(Initiator, AskClock);
    LeadsOne(w, m);
    w1 := Next(w, m);
    var buf := CkPacket(p.localSsrc, 0, w.initiator.clock, 0, 0);
    CkReadsBack(p.localSsrc, 0, w.initiator.clock, 0, 0);
    x := Flying(buf, MidiPort);
    assert SendEvent(buf, MidiPort) in SendCk0(p, w.initiator.clock).raised;
    assert x in w1.initiator.sent;
  }

  lemma {:induction false} AskAnswered(w: World, x: Flying) returns (y: Flying, w2: World)
    requires BothValid(w) && x in w.initiator.sent
    requires IsCommand(x.buf) && U16(x.buf, 2) == CK && |x.buf| == 36 && x.buf[8] == 0
    ensures Leads(w, [Move(Acceptor, Deliver(x, 0, NO_JOURNAL))], w2) && BothValid(w2) && w2.initiator == w.initiator
    ensures y in w2.acceptor.sent && IsCommand(y.buf) && U16(y.buf, 2) == CK && |y.buf| == 36 && y.buf[8] == 1
  {
    var p, now, m := w.acceptor.peer, w.acceptor.clock, Move(Acceptor, Deliver(x, 0, NO_JOURNAL));
    LeadsOne(w, m);
    w2 := Next(w, m);
    var ck1 := U64(x.buf, 12);
    var buf := CkPacket(p.localSsrc, 1, ck1, now, 0);
    CkReadsBack(p.localSsrc, 1, ck1, now, 0);
    CkIsDispatched(p, x.buf, 0, x.port, now, NO_JOURNAL);
    hide Leads, DataReady, CkPacket, U16, U64;
    y := Flying(buf, x.port);
    assert SendEvent(buf, x.port) in OnCk(p, x.buf, x.port, now).raised;
    assert y in w2.acceptor.sent;
  }

  /** There are such measurements: a CK0 that arrives, and whose answer arrives, leads to one. */
  lemma {:induction false} ClockIsMeasured(
    start: World) returns (moves: seq<Move>, end: World, m: Move, latency: uint64)
    requires Start(start)
    ensures Leads(start, moves, end) && m.action.Deliver? && Allowed(end, m) && Me(end, m.side).peer.Valid()
    ensures CkEvent(latency) in StepOf(Me(end, m.side), m.action).raised
  {
    var x, w1 := AskSends(start);
    var y, w2 := AskAnswered(w1, x);
    LeadsAppend(start, [Move(Initiator, AskClock)], w1, [Move(Acceptor, Deliver(x, 0, NO_JOURNAL))], w2);
    moves, end, m := [Move(Initiator, AskClock)] + [Move(Acceptor, Deliver(x, 0, NO_JOURNAL))], w2,
                     Move(Initiator, Deliver(y, 0, NO_JOURNAL));
    var p, now := w2.initiator.peer, w2.initiator.clock;
    CkIsDispatched(p, y.buf, 0, y.port, now, NO_JOURNAL);
    hide Leads, DataReady, CkPacket, U16, U64, Minus64;
    latency := Minus64(now, U64(y.buf, 12));
    assert OnCk(p, y.buf, y.port, now).raised[0] == CkEvent(latency);
  }

  /** Only a CK with count 1 or 2 makes a peer measure anything. */
  lemma {:induction false} OnlyCkMeasures(
    p: Peer, x: Flying, beyond: byte, now: uint64, journal: Journal, latency: uint64)
    requires p.Valid()
    requires CkEvent(latency) in DataReady(p, x.buf, beyond, x.port, now, journal).raised
    ensures IsCommand(x.buf) && U16(x.buf, 2) == CK && |x.buf| >= 28
    ensures x.buf[8] == 1 ==> latency == Minus64(now, U64(x.buf, 12))
    ensures x.buf[8] != 1 ==> x.buf[8] == 2 && latency == Minus64(now, U64(x.buf, 20))
  {
    hide U16, U32, U64, Str0At, ParseMidi, Minus64, CkPacket, SessionPacket;
    MidiMeasuresNothing(p, x.buf, beyond, journal);
  }

  lemma {:induction false} MidiMeasuresNothing(p: Peer, buf: seq<byte>, beyond: byte, journal: Journal)
    requires p.Valid()
    ensures forall s | s in ParseMidi(p, buf, beyond, journal).raised :: !s.CkEvent?
  {
    hide OnList, U16, U32, U64, MidiEvents, FeedbackPacket;
    MidiEventsSendNothing(journal.events);
    if |buf| >= 14 || (|buf| >= 13 && buf[12] < 0x80) {
      var p1, pos, length := p.(remoteSeqNr := U16(buf, 2)), ListStart(buf), ListLength(buf);
      var hasDelta := buf[12] / 0x20 % 2 == 1;
      ListKeeps(p1, buf, beyond, pos, length, hasDelta);
      ListKeeps(p1.(remoteSeqNr := journal.seqNr), buf, beyond, pos, length, hasDelta);
    }
  }

  lemma {:induction false} CkIsDispatched(
    p: Peer, buf: seq<byte>, beyond: byte, port: Port, now: uint64, journal: Journal)
    requires p.Valid() && IsCommand(buf) && U16(buf, 2) == CK
    ensures DataReady(p, buf, beyond, port, now, journal) == OnCk(p, buf, port, now)
  {
    hide OnCk;
  }

  lemma {:induction false} SentOne(packet: seq<byte>, port: Port, latency: uint64)
    ensures Sent([SendEvent(packet, port)]) == [packet]
    ensures Sent([CkEvent(latency), SendEvent(packet, port)]) == [packet]
    ensures Sent([CkEvent(latency)]) == []
  {
    assert [CkEvent(latency), SendEvent(packet, port)][1..] == [SendEvent(packet, port)];
    assert [SendEvent(packet, port)][1..] == [] && [CkEvent(latency)][1..] == [];
  }

  /** Each delivery of a clock packet is answered by at most one, whose count is one higher, and never after count 2. */
  lemma {:induction false} ClockChainIsShort(
    p: Peer, buf: seq<byte>, beyond: byte, port: Port, now: uint64, journal: Journal)
    requires p.Valid() && IsCommand(buf) && U16(buf, 2) == CK && |buf| == 36
    ensures var sent := Sent(DataReady(p, buf, beyond, port, now, journal).raised);
            if buf[8] < 2 then
              && |sent| == 1 && IsCommand(sent[0]) && U16(sent[0], 2) == CK && |sent[0]| == 36
              && sent[0][8] == buf[8] + 1 && U64(sent[0], 12) == U64(buf, 12)
            else sent == []
  {
    hide CkPacket, U16, U64, Minus64, DataReady, Sent;
    var ck1, ck2 := U64(buf, 12), U64(buf, 20);
    var a1, a2 := CkPacket(p.localSsrc, 1, ck1, now, 0), CkPacket(p.localSsrc, 2, ck1, ck2, now);
    CkReadsBack(p.localSsrc, 1, ck1, now, 0);
    CkReadsBack(p.localSsrc, 2, ck1, ck2, now);
    CkIsDispatched(p, buf, beyond, port, now, journal);
    SentOne(a1, port, 0);
    SentOne(a2, port, Minus64(now, ck1));
    SentOne(a2, port, Minus64(now, ck2));
    SentNothing();
  }

  lemma {:induction false} SentNothing()
    ensures Sent([]) == []
  {
  }
}
