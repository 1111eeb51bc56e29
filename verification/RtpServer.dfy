/**
  * rtpserver_t and rtpserverpeer_t (lib/rtpserver.cpp, lib/rtpserverpeer.cpp): which peer a
  * packet goes to, when a peer is made and when it goes.
  *
  * A listed peer is the state of its rtppeer_t; addresses, sockets and the signals that
  * are only passed on are not part of this model.
  */
module RtpServers {
  import opened Wrappers
  import opened IoBytes
  import opened MidiList
  import opened RtpPeers

  datatype ServerPeer = ServerPeer(id: nat, peer: Peer)

  /** `maxId` is the id that the next peer will get. */
  datatype Server = Server(peers: seq<ServerPeer>, maxId: nat, name: seq<byte>)

  /** What a new rtppeer_t draws at random. */
  datatype Drawn = Drawn(ssrc: uint32, seqNr: uint16)

  datatype Packet = Packet(buf: seq<byte>, beyond: byte, port: Port, now: uint64, journal: Journal, drawn: Drawn)

  function NewPeer(name: seq<byte>, drawn: Drawn): Peer {
    Peer(NOT_CONNECTED, 0, 0, drawn.ssrc, name, [], drawn.seqNr, drawn.seqNr, 0, 0, false, 0, [])
  }

  // ----- looking up

  /** The first peer with this SSRC, or the number of peers. */
  function FindBySsrc(peers: seq<ServerPeer>, ssrc: uint32): (i: nat)
    ensures i <= |peers| && forall j | 0 <= j < i :: peers[j].peer.remoteSsrc != ssrc
    ensures i < |peers| ==> peers[i].peer.remoteSsrc == ssrc
  {
    if peers == [] then 0
    else if peers[0].peer.remoteSsrc == ssrc then 0
    else
      var i := FindBySsrc(peers[1..], ssrc);
      assert forall j | 0 < j < i + 1 :: peers[j] == peers[1..][j - 1];
      i + 1
  }

  function FindByInitiator(peers: seq<ServerPeer>, initiator: uint32): (i: nat)
    ensures i <= |peers| && forall j | 0 <= j < i :: peers[j].peer.initiatorId != initiator
    ensures i < |peers| ==> peers[i].peer.initiatorId == initiator
  {
    if peers == [] then 0
    else if peers[0].peer.initiatorId == initiator then 0
    else
      var i := FindByInitiator(peers[1..], initiator);
      assert forall j | 0 < j < i + 1 :: peers[j] == peers[1..][j - 1];
      i + 1
  }

  /** The receive buffer is zeroed before a packet is put in it. */
  function OctetAt(buf: seq<byte>, i: nat): byte {
    if i < |buf| then buf[i] else 0
  }

  function ReadId(buf: seq<byte>, at: nat): Result<uint32> {
    if at + 4 > |buf| then Failure(EndOfBuffer) else Success(U32(buf, at))
  }

  /** find_peer_by_packet: invitations and their answers by initiator, everything else by SSRC. */
  function FindByPacket(peers: seq<ServerPeer>, buf: seq<byte>, port: Port): (r: Result<nat>)
    ensures r.Success? ==> r.value <= |peers|
  {
    var command := OctetAt(buf, 2) as int * 0x100 + OctetAt(buf, 3) as int;
    if command in {IN, OK, NO} then
      var id := ReadId(buf, 8);
      if id.Failure? then Failure(id.error) else Success(FindByInitiator(peers, id.value))
    else
      var at := if command == BY then Some(12)
                else if command in {CK, RS} then Some(4)
                else if port.MidiPort? && OctetAt(buf, 1) % 0x80 == 0x61 then Some(8)
                else None;
      if at.None? then Success(|peers|)
      else
        var ssrc := ReadId(buf, at.value);
        if ssrc.Failure? then Failure(ssrc.error) else Success(FindBySsrc(peers, ssrc.value))
  }

  // ----- peers come and go

  /** Whether the signals of a peer make the server drop it. */
  predicate Drops(raised: seq<Signal>) {
    exists s | s in raised :: s.StatusChange? && s.code >= 128
  }

  function RemoveId(peers: seq<ServerPeer>, id: nat): (kept: seq<ServerPeer>)
    ensures forall p :: p in kept <==> p in peers && p.id != id
  {
    if peers == [] then []
    else (if peers[0].id == id then [] else [peers[0]]) + RemoveId(peers[1..], id)
  }

  /** The server after the peer in place `i` has done `s`. */
  function PeerDid(server: Server, i: nat, s: Step): Server
    requires i < |server.peers|
  {
    var id := server.peers[i].id;
    var peers := server.peers[i := ServerPeer(id, s.peer)];
    server.(peers := if Drops(s.raised) then RemoveId(peers, id) else peers)
  }

  /** rtpserverpeer_t's constructor; when it throws, nothing is listed, but the id is spent. */
  function Create(server: Server, x: Packet): (Server, Outcome) {
    var s := DataReady(NewPeer(server.name, x.drawn), x.buf, x.beyond, x.port, x.now, x.journal);
    var peers := if s.outcome.Pass? then server.peers + [ServerPeer(server.maxId, s.peer)] else server.peers;
    (server.(peers := peers, maxId := server.maxId + 1), s.outcome)
  }

  predicate IsInvitation(buf: seq<byte>) {
    IsCommand(buf) && U16(buf, 2) == IN
  }

  predicate PeersValid(peers: seq<ServerPeer>) {
    forall p | p in peers :: p.peer.Valid()
  }

  function OnPacket(server: Server, x: Packet): (Server, Outcome)
    requires PeersValid(server.peers)
  {
    var found := FindByPacket(server.peers, x.buf, x.port);
    if found.Failure? then (server, Fail(found.error))
    else if found.value < |server.peers| then
      var s := DataReady(server.peers[found.value].peer, x.buf, x.beyond, x.port, x.now, x.journal);
      (PeerDid(server, found.value, s), s.outcome)
    else if IsInvitation(x.buf) then Create(server, x)
    else (server, Pass)
  }

  /** The place of the peer with this id, or the number of peers. */
  function PlaceOf(peers: seq<ServerPeer>, id: nat): (i: nat)
    ensures i <= |peers| && (i < |peers| ==> peers[i].id == id)
    ensures forall j | 0 <= j < i :: peers[j].id != id
  {
    if peers == [] then 0
    else if peers[0].id == id then 0
    else
      var i := PlaceOf(peers[1..], id);
      assert forall j | 0 < j < i + 1 :: peers[j] == peers[1..][j - 1];
      i + 1
  }

  /** The five seconds for the MIDI port are over: a peer that has only its control port is disconnected. */
  function OnFirstTimer(server: Server, id: nat): Server {
    var i := PlaceOf(server.peers, id);
    if i == |server.peers| || server.peers[i].peer.status != CONTROL_CONNECTED then server
    else PeerDid(server, i, Disconnect(server.peers[i].peer))
  }

  /** A minute without a clock exchange: the peer is disconnected. */
  function OnCkTimer(server: Server, id: nat): Server {
    var i := PlaceOf(server.peers, id);
    if i == |server.peers| then server
    else PeerDid(server, i, Disconnect(server.peers[i].peer))
  }

  predicate DistinctIds(peers: seq<ServerPeer>) {
    forall i, j | 0 <= i < j < |peers| :: peers[i].id != peers[j].id
  }

  // ----- runs

  datatype Event =
    | PacketCame(x: Packet)
    | FirstTimer(id: nat)
    | CkTimer(id: nat)

  function Handle(server: Server, e: Event): Server
    requires PeersValid(server.peers)
  {
    match e
    case PacketCame(x) => OnPacket(server, x).0
    case FirstTimer(id) => OnFirstTimer(server, id)
    case CkTimer(id) => OnCkTimer(server, id)
  }

  /** The clients by initiator id, each with its SSRC; no two share one. */
  type Clients = map<uint32, uint32>

  predicate Distinct(clients: Clients) {
    forall a, b | a in clients && b in clients && clients[a] == clients[b] :: a == b
  }

  /**
    * IN and BY carry initiator and SSRC of one client; clients send no OK and no NO. All
    * other packets may be anything.
    */
  predicate FromClient(buf: seq<byte>, clients: Clients) {
    IsCommand(buf) ==>
      var c := U16(buf, 2);
      && c != OK && c != NO
      && (c in {IN, BY} ==> U32(buf, 8) in clients && U32(buf, 12) == clients[U32(buf, 8)])
  }

  predicate Expected(e: Event, clients: Clients) {
    e.PacketCame? ==> FromClient(e.x.buf, clients)
  }

  predicate ListsClient(p: ServerPeer, clients: Clients) {
    && p.peer.Valid() && p.peer.status != NOT_CONNECTED
    && p.peer.initiatorId in clients && p.peer.remoteSsrc == clients[p.peer.initiatorId]
  }

  /** No two peers have an id or an initiator in common. */
  predicate Apart(peers: seq<ServerPeer>) {
    forall i, j | 0 <= i < j < |peers| ::
      peers[i].id != peers[j].id && peers[i].peer.initiatorId != peers[j].peer.initiatorId
  }

  /** At most one peer per client, each bound to that client's SSRC, none without a port; ids are distinct and spent. */
  predicate Inv(server: Server, clients: Clients) {
    && (forall p | p in server.peers :: ListsClient(p, clients) && p.id < server.maxId)
    && Apart(server.peers)
  }

  lemma {:induction false} CommandOctetsAre(buf: seq<byte>)
    requires |buf| >= 4
    ensures OctetAt(buf, 2) as int * 0x100 + OctetAt(buf, 3) as int == U16(buf, 2)
  {
    BigEndianTwo(buf[2], buf[3]);
    assert buf[2..4] == [buf[2], buf[3]];
  }

  /** What a step of a listed peer has to keep, unless it makes the server drop the peer. */
  predicate StepFits(p: Peer, s: Step) {
    || Drops(s.raised)
    || (&& s.peer.Valid() && s.peer.status != NOT_CONNECTED
        && s.peer.initiatorId == p.initiatorId && s.peer.remoteSsrc == p.remoteSsrc)
  }

  lemma {:induction false} RemoveIdKeepsApart(peers: seq<ServerPeer>, id: nat)
    requires Apart(peers)
    ensures Apart(RemoveId(peers, id))
    decreases |peers|
  {
    if peers != [] {
      var rest := RemoveId(peers[1..], id);
      assert Apart(peers[1..]);
      RemoveIdKeepsApart(peers[1..], id);
      forall j | 0 <= j < |rest|
        ensures peers[0].id != rest[j].id && peers[0].peer.initiatorId != rest[j].peer.initiatorId
      {
        assert rest[j] in rest && rest[j] in peers[1..];
      }
      var kept := RemoveId(peers, id);
      if peers[0].id != id {
        assert kept == [peers[0]] + rest;
        forall i, j | 0 <= i < j < |kept|
          ensures kept[i].id != kept[j].id && kept[i].peer.initiatorId != kept[j].peer.initiatorId
        {
          assert kept[j] == rest[j - 1] && (i > 0 ==> kept[i] == rest[i - 1]);
        }
      } else {
        assert kept == rest;
      }
    }
  }

  /** Only the peer with the id goes, and it goes whatever has become of it. */
  lemma {:induction false} RemoveIdAfterUpdate(peers: seq<ServerPeer>, i: nat, peer: Peer)
    requires Apart(peers) && i < |peers|
    ensures var id := peers[i].id; RemoveId(peers[i := ServerPeer(id, peer)], id) == RemoveId(peers, id)
    decreases |peers|
  {
    var id := peers[i].id;
    var changed := peers[i := ServerPeer(id, peer)];
    if i == 0 {
      assert changed[1..] == peers[1..];
    } else {
      assert Apart(peers[1..]);
      assert changed[1..] == peers[1..][i - 1 := ServerPeer(id, peer)];
      RemoveIdAfterUpdate(peers[1..], i - 1, peer);
    }
  }

  lemma {:induction false} PeerDidKeeps(server: Server, i: nat, s: Step, clients: Clients)
    requires Inv(server, clients) && i < |server.peers|
    requires StepFits(server.peers[i].peer, s)
    ensures Inv(PeerDid(server, i, s), clients)
  {
    hide Drops;
    var id := server.peers[i].id;
    if Drops(s.raised) {
      RemoveIdAfterUpdate(server.peers, i, s.peer);
      RemoveIdKeepsApart(server.peers, id);
    } else {
      assert server.peers[i] in server.peers;
    }
  }

  lemma {:induction false} DisconnectDrops(p: Peer)
    requires p.status != NOT_CONNECTED
    ensures Drops(Disconnect(p).raised)
  {
    hide SessionPacket;
    assert StatusChange(DISCONNECTED_DISCONNECT) in Disconnect(p).raised;
  }

  lemma {:induction false} TimerKeeps(server: Server, i: nat, clients: Clients)
    requires Inv(server, clients) && i < |server.peers|
    ensures Inv(PeerDid(server, i, Disconnect(server.peers[i].peer)), clients)
  {
    hide Disconnect, PeerDid, Drops;
    assert server.peers[i] in server.peers;
    DisconnectDrops(server.peers[i].peer);
    PeerDidKeeps(server, i, Disconnect(server.peers[i].peer), clients);
  }

  /** A packet for the peer in the place where its packet is looked up. */
  lemma {:induction false} FoundStepFits(p: Peer, x: Packet, clients: Clients)
    requires ListsClient(ServerPeer(0, p), clients) && Distinct(clients) && FromClient(x.buf, clients)
    requires IsInvitation(x.buf) ==> p.initiatorId == U32(x.buf, 8)
    requires IsCommand(x.buf) && U16(x.buf, 2) == BY ==> p.remoteSsrc == U32(x.buf, 12)
    ensures StepFits(p, DataReady(p, x.buf, x.beyond, x.port, x.now, x.journal))
  {
    hide U16, U32, U64, ParseMidi, Str0At, SetBit, SessionPacket, CkPacket, Minus64;
    KeepsValid(p, x.buf, x.port, x.now);
    SetBitSets(p.status, x.port);
    MidiKeepsSession(p, x.buf, x.beyond, x.journal);
    if IsCommand(x.buf) && U16(x.buf, 2) == BY {
      ByFits(p, x.buf, x.port);
    }
  }

  lemma {:induction false} SetBitSets(status: Status, port: Port)
    ensures SetBit(status, port) != NOT_CONNECTED
  {
  }

  lemma {:induction false} ByFits(p: Peer, buf: seq<byte>, port: Port)
    requires p.Valid() && |buf| >= 16 && U32(buf, 12) == p.remoteSsrc && p.status != NOT_CONNECTED
    requires U32(buf, 8) == p.initiatorId
    ensures StepFits(p, OnBy(p, buf, port))
  {
    hide U32;
    var s := OnBy(p, buf, port);
    if s.peer.status == NOT_CONNECTED {
      assert StatusChange(DISCONNECTED_PEER_DISCONNECTED) in s.raised;
    }
  }

  lemma {:induction false} MidiKeepsSession(p: Peer, buf: seq<byte>, beyond: byte, journal: Journal)
    requires p.Valid()
    ensures var s := ParseMidi(p, buf, beyond, journal);
            && s.peer.Valid()
            && s.peer == p.(running := s.peer.running, sysex := s.peer.sysex, remoteSeqNr := s.peer.remoteSeqNr)
  {
    hide DecodeList, ReadDelta, U16, U32, MidiEvents, JournalSignals;
  }

  lemma {:induction false} CreateKeeps(server: Server, x: Packet, clients: Clients)
    requires Inv(server, clients) && FromClient(x.buf, clients) && IsInvitation(x.buf)
    requires FindByInitiator(server.peers, U32(x.buf, 8)) == |server.peers|
    ensures Inv(Create(server, x).0, clients)
  {
    var p := NewPeer(server.name, x.drawn);
    var s := DataReady(p, x.buf, x.beyond, x.port, x.now, x.journal);
    SetBitSets(NOT_CONNECTED, x.port);
    hide U16, U32, U64, Str0At, SetBit, SessionPacket;
    assert s == OnIn(p, x.buf, x.port);
    if s.outcome.Pass? {
      var peers := server.peers + [ServerPeer(server.maxId, s.peer)];
      assert forall i | 0 <= i < |server.peers| :: server.peers[i] in server.peers;
      assert Apart(peers);
    }
  }

  lemma {:induction false} OnPacketKeeps(server: Server, x: Packet, clients: Clients)
    requires Inv(server, clients) && Distinct(clients) && FromClient(x.buf, clients)
    ensures Inv(OnPacket(server, x).0, clients)
  {
    hide DataReady, U16, U32, Create, PeerDid, FindByInitiator, FindBySsrc, StepFits;
    var found := FindByPacket(server.peers, x.buf, x.port);
    if IsCommand(x.buf) {
      CommandOctetsAre(x.buf);
    }
    if found.Success? {
      if found.value < |server.peers| {
        var p := server.peers[found.value];
        assert p in server.peers;
        FoundStepFits(p.peer, x, clients);
        PeerDidKeeps(server, found.value, DataReady(p.peer, x.buf, x.beyond, x.port, x.now, x.journal), clients);
      } else if IsInvitation(x.buf) {
        CreateKeeps(server, x, clients);
      }
    }
  }

  lemma {:induction false} HandleKeeps(server: Server, e: Event, clients: Clients)
    requires Inv(server, clients) && Distinct(clients) && Expected(e, clients)
    ensures Inv(Handle(server, e), clients)
  {
    hide OnPacket, PeerDid, FromClient;
    match e
    case PacketCame(x) => OnPacketKeeps(server, x, clients);
    case FirstTimer(id) =>
      if PlaceOf(server.peers, id) < |server.peers| {
        TimerKeeps(server, PlaceOf(server.peers, id), clients);
      }
    case CkTimer(id) =>
      if PlaceOf(server.peers, id) < |server.peers| {
        TimerKeeps(server, PlaceOf(server.peers, id), clients);
      }
  }

  /** The server after all the events, as long as its peers stay sound. */
  ghost predicate Leads(server: Server, events: seq<Event>, end: Server)
    decreases |events|
  {
    if events == [] then server == end
    else PeersValid(server.peers) && Leads(Handle(server, events[0]), events[1..], end)
  }

  predicate Lists(peers: seq<ServerPeer>, id: nat) {
    exists p | p in peers :: p.id == id
  }

  /** An id that was given before and is not listed, because its peer has gone, is not listed afterwards either. */
  ghost predicate NewIdsOnly(before: Server, after: Server) {
    && before.maxId <= after.maxId
    && forall id: nat | id < before.maxId && !Lists(before.peers, id) :: !Lists(after.peers, id)
  }

  lemma {:induction false} PeerDidListsNoMore(server: Server, i: nat, s: Step)
    requires i < |server.peers|
    ensures NewIdsOnly(server, PeerDid(server, i, s))
  {
    hide Drops;
    forall id: nat | Lists(PeerDid(server, i, s).peers, id)
      ensures Lists(server.peers, id)
    {
      var p :| p in PeerDid(server, i, s).peers && p.id == id;
      assert server.peers[i] in server.peers;
      assert p in server.peers || p == ServerPeer(server.peers[i].id, s.peer);
    }
  }

  lemma {:induction false} CreateListsNew(server: Server, x: Packet)
    ensures NewIdsOnly(server, Create(server, x).0)
  {
    hide DataReady;
  }

  lemma {:induction false} HandleListsNew(server: Server, e: Event)
    requires PeersValid(server.peers)
    ensures NewIdsOnly(server, Handle(server, e))
  {
    hide DataReady, Disconnect, Create, PeerDid, FindByPacket;
    match e
    case PacketCame(x) =>
      var found := FindByPacket(server.peers, x.buf, x.port);
      if found.Success? && found.value < |server.peers| {
        PeerDidListsNoMore(server, found.value,
                           DataReady(server.peers[found.value].peer, x.buf, x.beyond, x.port, x.now, x.journal));
      }
      CreateListsNew(server, x);
    case FirstTimer(id) =>
      var i := PlaceOf(server.peers, id);
      if i < |server.peers| {
        PeerDidListsNoMore(server, i, Disconnect(server.peers[i].peer));
      }
    case CkTimer(id) =>
      var i := PlaceOf(server.peers, id);
      if i < |server.peers| {
        PeerDidListsNoMore(server, i, Disconnect(server.peers[i].peer));
      }
  }

  lemma {:induction false} RunListsNew(server: Server, events: seq<Event>, end: Server)
    requires Leads(server, events, end)
    ensures NewIdsOnly(server, end)
    decreases |events|
  {
    hide Handle;
    if events != [] {
      HandleListsNew(server, events[0]);
      RunListsNew(Handle(server, events[0]), events[1..], end);
    }
  }

  /**
    * Whatever the order in which the clients' packets come and the timers fire, the list stays
    * as it should, and ids are only ever given anew.
    */
  lemma {:induction false} RunKeeps(server: Server, events: seq<Event>, end: Server, clients: Clients)
    requires Inv(server, clients) && Distinct(clients) && Leads(server, events, end)
    requires forall e | e in events :: Expected(e, clients)
    ensures Inv(end, clients) && NewIdsOnly(server, end)
    decreases |events|
  {
    hide Inv, Handle, Expected;
    RunListsNew(server, events, end);
    hide NewIdsOnly;
    if events != [] {
      HandleKeeps(server, events[0], clients);
      RunKeeps(Handle(server, events[0]), events[1..], end, clients);
    }
  }

  // ----- the order of the two invitations

  /** An invitation that the server's peers can accept. */
  predicate Acceptable(server: Server, x: Packet) {
    && IsInvitation(x.buf) && U32(x.buf, 4) == 2
    && |server.name| <= 111 && forall p | p in server.peers :: |p.peer.localName| <= 111
  }

  lemma {:induction false} BothPorts(p: Peer, buf: seq<byte>, a: Port, b: Port)
    requires |buf| >= 16 && U32(buf, 4) == 2 && |p.localName| <= 111 && a != b
    ensures OnIn(p, buf, a).outcome == Pass && !Drops(OnIn(p, buf, a).raised)
    ensures OnIn(OnIn(p, buf, a).peer, buf, b).peer == OnIn(OnIn(p, buf, b).peer, buf, a).peer
    ensures OnIn(OnIn(p, buf, a).peer, buf, b).peer.status == CONNECTED
    ensures OnIn(p, buf, a).peer.localName == p.localName && OnIn(p, buf, a).peer.initiatorId == U32(buf, 8)
  {
    hide U32, Str0At, SessionPacket;
    assert SetBit(SetBit(p.status, a), b) == CONNECTED && SetBit(SetBit(p.status, b), a) == CONNECTED;
    assert SetBit(p.status, a) <= 3;
  }

  lemma {:induction false} InvitationIsHandled(p: Peer, x: Packet)
    requires p.Valid() && IsInvitation(x.buf)
    ensures DataReady(p, x.buf, x.beyond, x.port, x.now, x.journal) == OnIn(p, x.buf, x.port)
  {
    hide OnIn;
  }

  lemma {:induction false} FindByInitiatorIs(peers: seq<ServerPeer>, initiator: uint32, i: nat)
    requires i < |peers| && peers[i].peer.initiatorId == initiator
    requires forall j | 0 <= j < i :: peers[j].peer.initiatorId != initiator
    ensures FindByInitiator(peers, initiator) == i
  {
    hide FindByInitiator;
    var _ := FindByInitiator(peers, initiator);
  }

  /** One invitation: its peer, listed already or new, accepts it. */
  lemma {:induction false} Invited(server: Server, x: Packet) returns (i: nat)
    requires PeersValid(server.peers) && Acceptable(server, x)
    ensures i == FindByInitiator(server.peers, U32(x.buf, 8))
    ensures var after := OnPacket(server, x).0;
            var p := if i < |server.peers| then server.peers[i].peer else NewPeer(server.name, x.drawn);
            && |p.localName| <= 111 && p.Valid()
            && after.name == server.name
            && after.maxId == (if i < |server.peers| then server.maxId else server.maxId + 1)
            && var id := if i < |server.peers| then server.peers[i].id else server.maxId;
               var listed := ServerPeer(id, OnIn(p, x.buf, x.port).peer);
               after.peers == if i < |server.peers| then server.peers[i := listed] else server.peers + [listed]
  {
    hide U16, U32, OnIn, DataReady, FindByInitiator, Drops;
    CommandOctetsAre(x.buf);
    i := FindByInitiator(server.peers, U32(x.buf, 8));
    var p := if i < |server.peers| then server.peers[i].peer else NewPeer(server.name, x.drawn);
    if i < |server.peers| {
      assert server.peers[i] in server.peers;
    }
    InvitationIsHandled(p, x);
    BothPorts(p, x.buf, x.port, if x.port.MidiPort? then ControlPort else MidiPort);
  }

  /**
    * The same invitation on the control port and on the MIDI port: whichever comes first,
    * the server ends up with the same peers, and with the client's one connected.
    */
  lemma {:induction false} InvitationsCommute(server: Server, x: Packet, y: Packet)
    requires PeersValid(server.peers) && Acceptable(server, x)
    requires y.buf == x.buf && y.port != x.port && y.drawn == x.drawn
    ensures PeersValid(OnPacket(server, x).0.peers) && PeersValid(OnPacket(server, y).0.peers)
    ensures var end := OnPacket(OnPacket(server, x).0, y).0;
            && end == OnPacket(OnPacket(server, y).0, x).0
            && var i := FindByInitiator(end.peers, U32(x.buf, 8));
               i < |end.peers| && end.peers[i].peer.status == CONNECTED
  {
    hide OnPacket, OnIn, U32, IsInvitation, FindByInitiator;
    var a := InvitedTwice(server, x, y);
    var b := InvitedTwice(server, y, x);
    assert OnPacket(OnPacket(server, x).0, y).0 == OnPacket(OnPacket(server, y).0, x).0;
  }

  lemma {:induction false} InvitedTwice(server: Server, x: Packet, y: Packet) returns (i: nat)
    requires PeersValid(server.peers) && Acceptable(server, x)
    requires y.buf == x.buf && y.port != x.port && y.drawn == x.drawn
    ensures i == FindByInitiator(server.peers, U32(x.buf, 8))
    ensures PeersValid(OnPacket(server, x).0.peers)
    ensures var end := OnPacket(OnPacket(server, x).0, y).0;
            var p := if i < |server.peers| then server.peers[i].peer else NewPeer(server.name, x.drawn);
            var both := OnIn(OnIn(p, x.buf, x.port).peer, x.buf, y.port).peer;
            && both == OnIn(OnIn(p, x.buf, y.port).peer, x.buf, x.port).peer && both.status == CONNECTED
            && end.name == server.name && FindByInitiator(end.peers, U32(x.buf, 8)) == i < |end.peers|
            && end.maxId == (if i < |server.peers| then server.maxId else server.maxId + 1)
            && var listed := ServerPeer(if i < |server.peers| then server.peers[i].id else server.maxId, both);
               end.peers == if i < |server.peers| then server.peers[i := listed] else server.peers + [listed]
  {
    hide OnPacket, OnIn, U32, IsInvitation, FindByInitiator;
    i := Invited(server, x);
    var mid := OnPacket(server, x).0;
    var p := if i < |server.peers| then server.peers[i].peer else NewPeer(server.name, x.drawn);
    InvitationHeader(x.buf);
    BothPorts(p, x.buf, x.port, y.port);
    BothPorts(OnIn(p, x.buf, x.port).peer, x.buf, y.port, x.port);
    InvitationKeepsDecoder(p, x.buf, x.port);
    assert forall q | q in mid.peers :: q in server.peers || q.peer == OnIn(p, x.buf, x.port).peer;
    FindByInitiatorIs(mid.peers, U32(x.buf, 8), i);
    var j := Invited(mid, y);
    var end := OnPacket(mid, y).0;
    FindByInitiatorIs(end.peers, U32(x.buf, 8), i);
  }

  lemma {:induction false} InvitationHeader(buf: seq<byte>)
    requires IsInvitation(buf)
    ensures |buf| >= 16
  {
  }

  lemma {:induction false} InvitationKeepsDecoder(p: Peer, buf: seq<byte>, port: Port)
    requires |buf| >= 16 && p.Valid()
    ensures OnIn(p, buf, port).peer.Valid()
  {
  }

  // ----- the class

  class RtpServer {
    var maxPeerDataId: nat
    var peers: seq<ServerPeer>
    const name: seq<byte>

    function State(): Server
      reads this
    {
      Server(peers, maxPeerDataId, name)
    }

    constructor (name: seq<byte>)
      ensures State() == Server([], 1, name)
    {
      this.name, maxPeerDataId, peers := name, 1, [];
    }

    method FindPeerBySsrc(ssrc: uint32) returns (i: nat)
      ensures i == FindBySsrc(peers, ssrc)
    {
      i := 0;
      while i < |peers|
        invariant 0 <= i <= |peers|
        invariant forall j | 0 <= j < i :: peers[j].peer.remoteSsrc != ssrc
      {
        if peers[i].peer.remoteSsrc == ssrc {
          return;
        }
        i := i + 1;
      }
    }

    method FindPeerByInitiatorId(initiatorId: uint32) returns (i: nat)
      ensures i == FindByInitiator(peers, initiatorId)
    {
      i := 0;
      while i < |peers|
        invariant 0 <= i <= |peers|
        invariant forall j | 0 <= j < i :: peers[j].peer.initiatorId != initiatorId
      {
        if peers[i].peer.initiatorId == initiatorId {
          return;
        }
        i := i + 1;
      }
    }

    method FindPeerDataById(id: nat) returns (i: nat)
      ensures i == PlaceOf(peers, id)
    {
      i := 0;
      while i < |peers|
        invariant 0 <= i <= |peers|
        invariant forall j | 0 <= j < i :: peers[j].id != id
      {
        if peers[i].id == id {
          return;
        }
        i := i + 1;
      }
    }

    method FindPeerByPacket(buf: seq<byte>, port: Port) returns (r: Result<nat>)
      ensures r == FindByPacket(peers, buf, port)
    {
      var command := OctetAt(buf, 2) as int * 0x100 + OctetAt(buf, 3) as int;
      var at := 4;
      if command in {IN, OK, NO} {
        var id := ReadId(buf, 8);
        if id.Failure? {
          return Failure(id.error);
        }
        var i := FindPeerByInitiatorId(id.value);
        return Success(i);
      } else if command == BY {
        at := 12;
      } else if command in {CK, RS} {
        at := 4;
      } else if port.MidiPort? && OctetAt(buf, 1) % 0x80 == 0x61 {
        at := 8;
      } else {
        return Success(|peers|);
      }
      var ssrc := ReadId(buf, at);
      if ssrc.Failure? {
        return Failure(ssrc.error);
      }
      var i := FindPeerBySsrc(ssrc.value);
      return Success(i);
    }

    /** Erases the one peer with this id; ids are distinct. */
    method RemovePeer(id: nat)
      requires DistinctIds(peers)
      modifies this`peers
      ensures peers == RemoveId(old(peers), id)
    {
      var i := FindPeerDataById(id);
      if i == |peers| {
        NothingToRemove(peers, id);
        return;
      }
      OneToRemove(peers, id, i);
      peers := peers[..i] + peers[i + 1..];
    }

    /** The signals of the peer in place `i`, one after the other; a code from 128 on makes the server drop it. */
    method StatusChanges(id: nat, raised: seq<Signal>)
      requires DistinctIds(peers)
      modifies this`peers
      ensures peers == if Drops(raised) then RemoveId(old(peers), id) else old(peers)
    {
      var k := 0;
      while k < |raised|
        invariant 0 <= k <= |raised|
        invariant peers == if Drops(raised[..k]) then RemoveId(old(peers), id) else old(peers)
        invariant DistinctIds(peers)
      {
        DropsMore(raised, k);
        if raised[k].StatusChange? && raised[k].code >= 128 {
          RemoveTwice(old(peers), id);
          RemoveKeepsDistinct(old(peers), id);
          RemovePeer(id);
        }
        k := k + 1;
      }
      assert raised[..k] == raised;
    }

    method CreatePeerFrom(x: Packet) returns (o: Outcome)
      modifies this
      ensures (State(), o) == Create(old(State()), x)
    {
      var id := maxPeerDataId;
      maxPeerDataId := maxPeerDataId + 1;
      var s := DataReady(NewPeer(name, x.drawn), x.buf, x.beyond, x.port, x.now, x.journal);
      if s.outcome.Pass? {
        peers := peers + [ServerPeer(id, s.peer)];
      }
      o := s.outcome;
    }

    method OnDataReady(x: Packet) returns (o: Outcome)
      requires PeersValid(peers)
      requires DistinctIds(peers)
      modifies this
      ensures (State(), o) == OnPacket(old(State()), x)
    {
      hide FindByPacket, DataReady, Drops, Create, RemoveId, IsInvitation;
      var found := FindPeerByPacket(x.buf, x.port);
      if found.Failure? {
        return Fail(found.error);
      }
      var i := found.value;
      if i < |peers| {
        assert peers[i] in peers;
        var s := DataReady(peers[i].peer, x.buf, x.beyond, x.port, x.now, x.journal);
        var id := peers[i].id;
        peers := peers[i := ServerPeer(id, s.peer)];
        StatusChanges(id, s.raised);
        return s.outcome;
      }
      if IsInvitation(x.buf) {
        o := CreatePeerFrom(x);
      } else {
        o := Pass;
      }
    }

    /** The timer of setup_connections. */
    method FirstTimerFired(id: nat)
      requires DistinctIds(peers)
      modifies this`peers
      ensures State() == OnFirstTimer(old(State()), id)
    {
      hide Drops, RemoveId, Disconnect;
      var i := FindPeerDataById(id);
      if i < |peers| && peers[i].peer.status == CONTROL_CONNECTED {
        var s := Disconnect(peers[i].peer);
        peers := peers[i := ServerPeer(id, s.peer)];
        StatusChanges(id, s.raised);
      }
    }

    /** The timer that rearm_ck_timeout sets. */
    method CkTimerFired(id: nat)
      requires DistinctIds(peers)
      modifies this`peers
      ensures State() == OnCkTimer(old(State()), id)
    {
      hide Drops, RemoveId, Disconnect;
      var i := FindPeerDataById(id);
      if i < |peers| {
        var s := Disconnect(peers[i].peer);
        peers := peers[i := ServerPeer(id, s.peer)];
        StatusChanges(id, s.raised);
      }
    }
  }

  lemma {:induction false} NothingToRemove(peers: seq<ServerPeer>, id: nat)
    requires forall i | 0 <= i < |peers| :: peers[i].id != id
    ensures RemoveId(peers, id) == peers
    decreases |peers|
  {
    if peers != [] {
      NothingToRemove(peers[1..], id);
    }
  }

  lemma {:induction false} OneToRemove(peers: seq<ServerPeer>, id: nat, i: nat)
    requires i < |peers| && peers[i].id == id
    requires DistinctIds(peers)
    ensures RemoveId(peers, id) == peers[..i] + peers[i + 1..]
    decreases |peers|
  {
    var rest := peers[1..];
    assert DistinctIds(rest);
    if i == 0 {
      forall k | 0 <= k < |rest| ensures rest[k].id != id {
        assert rest[k] == peers[k + 1];
      }
      hide DistinctIds;
      NothingToRemove(rest, id);
    } else {
      assert peers[0].id != id;
      hide DistinctIds;
      OneToRemove(rest, id, i - 1);
      assert peers[..i] == [peers[0]] + rest[..i - 1];
      assert peers[i + 1..] == rest[i..];
    }
  }

  lemma {:induction false} RemoveTwice(peers: seq<ServerPeer>, id: nat)
    ensures RemoveId(RemoveId(peers, id), id) == RemoveId(peers, id)
  {
    NothingToRemove(RemoveId(peers, id), id);
  }

  lemma {:induction false} RemoveKeepsDistinct(peers: seq<ServerPeer>, id: nat)
    requires DistinctIds(peers)
    ensures DistinctIds(RemoveId(peers, id))
  {
    if i :| 0 <= i < |peers| && peers[i].id == id {
      OneToRemove(peers, id, i);
    } else {
      NothingToRemove(peers, id);
    }
  }

  lemma {:induction false} DropsMore(raised: seq<Signal>, k: nat)
    requires k < |raised|
    ensures Drops(raised[..k + 1]) <==> Drops(raised[..k]) || (raised[k].StatusChange? && raised[k].code >= 128)
  {
    assert raised[..k + 1] == raised[..k] + [raised[k]];
  }
}
