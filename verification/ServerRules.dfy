/**
  * What single packets and timers do to the server's list of peers: which peer hears which
  * packet, who stays and who goes.
  */
module ServerRules {
  import opened Wrappers
  import opened IoBytes
  import opened RtpPeers
  import opened SysexPath
  import opened PeerRules
  import opened RtpServers

  // ----- which peer a packet is for

  /** IN, OK and NO go to the peer with the initiator that they name, BY to the one with the sender's SSRC. */
  lemma {:induction false} SessionPacketIsFor(
    peers: seq<ServerPeer>, command: uint16, id: uint32, ssrc: uint32, tail: seq<byte>, port: Port)
    ensures var r := FindByPacket(peers, SessionPacket(command, id, ssrc) + tail, port);
            && (command == IN || command == OK || command == NO ==> r == Success(FindByInitiator(peers, id)))
            && (command == BY ==> r == Success(FindBySsrc(peers, ssrc)))
  {
    hide SessionPacket, U16, U32, FindByInitiator, FindBySsrc;
    SessionReadsBack(command, id, ssrc, tail);
    CommandOctetsAre(SessionPacket(command, id, ssrc) + tail);
  }

  lemma {:induction false} ClockPacketIsFor(peers: seq<ServerPeer>, buf: seq<byte>, c: Clock, port: Port)
    requires IsClock(buf, c)
    ensures FindByPacket(peers, buf, port) == Success(FindBySsrc(peers, c.ssrc))
  {
    hide U16, U32, U64, FindBySsrc;
    CommandOctetsAre(buf);
  }

  lemma {:induction false} FeedbackIsFor(peers: seq<ServerPeer>, ssrc: uint32, n: uint16, port: Port)
    ensures FindByPacket(peers, FeedbackPacket(ssrc, n), port) == Success(FindBySsrc(peers, ssrc))
  {
    hide CommandOctets, U16, U32, FindBySsrc, Octets;
    CommandReadsBack(RS, ssrc, Octets(n, 4));
    CommandOctetsAre(FeedbackPacket(ssrc, n));
  }

  /** The sequence numbers at whose place the server reads a command. */
  predicate LooksLikeCommand(seqNr: uint16) {
    seqNr == IN || seqNr == OK || seqNr == NO || seqNr == BY || seqNr == CK || seqNr == RS
  }

  /**
    * MIDI goes to the peer with the sender's SSRC, by the MIDI port only; but the search does
    * not look for the signature of a command, and a packet with one of six sequence numbers
    * goes to the peer whose initiator is that SSRC, or whose SSRC is the time stamp or four
    * octets of the list.
    */
  lemma {:induction false} MidiIsFor(
    peers: seq<ServerPeer>, ssrc: uint32, seqNr: uint16, timestamp: uint32, payload: seq<byte>, port: Port)
    ensures var buf := Framed(ssrc, seqNr, timestamp, payload);
            var r := FindByPacket(peers, buf, port);
            && (!LooksLikeCommand(seqNr) ==>
                  r == Success(if port.MidiPort? then FindBySsrc(peers, ssrc) else |peers|))
            && (seqNr == IN || seqNr == OK || seqNr == NO ==> r == Success(FindByInitiator(peers, ssrc)))
            && (seqNr == CK || seqNr == RS ==> r == Success(FindBySsrc(peers, timestamp)))
            && (seqNr == BY ==>
                  r == if |buf| < 16 then Failure(EndOfBuffer) else Success(FindBySsrc(peers, U32(buf, 12))))
  {
    hide Framed, U16, U32, FindBySsrc, FindByInitiator;
    FramedHeader(ssrc, seqNr, timestamp, payload);
    CommandOctetsAre(Framed(ssrc, seqNr, timestamp, payload));
  }

  /**
    * So a client that sends on loses a packet every time its sequence numbers come around to
    * IN, OK or NO, unless its SSRC happens to be the initiator of its own peer.
    */
  lemma {:induction false} MidiReachesItsPeerIff(
    server: Server, i: nat, seqNr: uint16, timestamp: uint32, payload: seq<byte>, x: Packet, clients: Clients)
    requires Inv(server, clients) && Distinct(clients) && i < |server.peers|
    requires x.buf == Framed(server.peers[i].peer.remoteSsrc, seqNr, timestamp, payload) && x.port == MidiPort
    requires !LooksLikeCommand(seqNr) || seqNr == IN || seqNr == OK || seqNr == NO
    ensures FindByPacket(server.peers, x.buf, x.port) == Success(i)
            <==> !LooksLikeCommand(seqNr) || server.peers[i].peer.remoteSsrc == server.peers[i].peer.initiatorId
    ensures LooksLikeCommand(seqNr)
            && (forall p | p in server.peers :: p.peer.initiatorId != server.peers[i].peer.remoteSsrc)
            ==> OnPacket(server, x) == (server, Pass)
  {
    var ssrc := server.peers[i].peer.remoteSsrc;
    MidiIsFor(server.peers, ssrc, seqNr, timestamp, payload, MidiPort);
    OnePeerOfClient(server, i, clients);
    FramedIsNoInvitation(ssrc, seqNr, timestamp, payload);
    FindIs(server.peers, i);
    hide Framed, FindByPacket, IsInvitation, DataReady, PeerDid, FindBySsrc, FindByInitiator;
    var _ := FindByInitiator(server.peers, ssrc);
  }

  lemma {:induction false} FramedIsNoInvitation(ssrc: uint32, seqNr: uint16, timestamp: uint32, payload: seq<byte>)
    ensures !IsInvitation(Framed(ssrc, seqNr, timestamp, payload))
  {
    FramedHeader(ssrc, seqNr, timestamp, payload);
    hide Framed;
  }

  /** There is one peer of a client, by initiator and by SSRC. */
  lemma {:induction false} OnePeerOfClient(server: Server, i: nat, clients: Clients)
    requires Inv(server, clients) && Distinct(clients) && i < |server.peers|
    ensures forall j | 0 <= j < |server.peers| && j != i ::
              && server.peers[j].peer.remoteSsrc != server.peers[i].peer.remoteSsrc
              && server.peers[j].peer.initiatorId != server.peers[i].peer.initiatorId
              && server.peers[j].id != server.peers[i].id
  {
    forall j | 0 <= j < |server.peers| && j != i
      ensures && server.peers[j].peer.remoteSsrc != server.peers[i].peer.remoteSsrc
              && server.peers[j].peer.initiatorId != server.peers[i].peer.initiatorId
              && server.peers[j].id != server.peers[i].id
    {
      assert server.peers[i] in server.peers && server.peers[j] in server.peers;
      if j < i {
        assert server.peers[j].id != server.peers[i].id;
      }
    }
  }

  lemma {:induction false} FindIs(peers: seq<ServerPeer>, i: nat)
    requires i < |peers|
    requires forall j | 0 <= j < |peers| && j != i ::
               && peers[j].peer.remoteSsrc != peers[i].peer.remoteSsrc
               && peers[j].peer.initiatorId != peers[i].peer.initiatorId && peers[j].id != peers[i].id
    ensures FindBySsrc(peers, peers[i].peer.remoteSsrc) == i
    ensures FindByInitiator(peers, peers[i].peer.initiatorId) == i
    ensures PlaceOf(peers, peers[i].id) == i
  {
    hide FindBySsrc, FindByInitiator, PlaceOf;
    var _ := FindBySsrc(peers, peers[i].peer.remoteSsrc);
    var _ := FindByInitiator(peers, peers[i].peer.initiatorId);
    var _ := PlaceOf(peers, peers[i].id);
  }

  // ----- who stays and who goes

  /** The peer in place `i` does its step. It goes if the step drops it; all others stay as they are. */
  lemma {:induction false} OnlyOneChanges(server: Server, i: nat, s: Step)
    requires i < |server.peers| && DistinctIds(server.peers)
    ensures var id, after := server.peers[i].id, PeerDid(server, i, s).peers;
            forall p :: p in after <==>
              (p in server.peers && p.id != id) || (p == ServerPeer(id, s.peer) && !Drops(s.raised))
  {
    hide Drops;
    var id := server.peers[i].id;
    var changed := server.peers[i := ServerPeer(id, s.peer)];
    assert changed[i] == ServerPeer(id, s.peer);
    forall p
      ensures p in changed <==> (p in server.peers && p.id != id) || p == ServerPeer(id, s.peer)
    {
      if p in server.peers && p.id != id {
        var j :| 0 <= j < |server.peers| && server.peers[j] == p;
        assert changed[j] == p;
      }
      if p in changed && p != ServerPeer(id, s.peer) {
        var j :| 0 <= j < |changed| && changed[j] == p;
        assert server.peers[j] == p && server.peers[j].id != server.peers[i].id;
      }
    }
  }

  lemma {:induction false} InvIsSound(server: Server, clients: Clients)
    requires Inv(server, clients)
    ensures DistinctIds(server.peers) && PeersValid(server.peers)
  {}

  /** A packet that is for a listed peer makes this peer, and no other, do what data_ready does. */
  lemma {:induction false} PacketChangesItsPeer(server: Server, i: nat, x: Packet, clients: Clients)
    requires Inv(server, clients) && i < |server.peers| && FindByPacket(server.peers, x.buf, x.port) == Success(i)
    ensures server.peers[i].peer.Valid()
    ensures var q := server.peers[i];
            var s := DataReady(q.peer, x.buf, x.beyond, x.port, x.now, x.journal);
            && OnPacket(server, x).1 == s.outcome
            && forall p :: p in OnPacket(server, x).0.peers <==>
                 (p in server.peers && p.id != q.id) || (p == ServerPeer(q.id, s.peer) && !Drops(s.raised))
  {
    assert server.peers[i] in server.peers;
    var s := DataReady(server.peers[i].peer, x.buf, x.beyond, x.port, x.now, x.journal);
    InvIsSound(server, clients);
    OnlyOneChanges(server, i, s);
    hide DataReady, PeerDid, Drops, FindByPacket, DistinctIds;
  }

  /** When the first timer of an id fires, its peer goes if and only if it has its control port only. */
  lemma {:induction false} FirstTimerDropsIff(server: Server, id: nat, clients: Clients)
    requires Inv(server, clients)
    ensures forall p :: p in OnFirstTimer(server, id).peers <==>
              && p in server.peers
              && !(p.id == id && HasBit(p.peer.status, ControlPort) && !HasBit(p.peer.status, MidiPort))
  {
    hide Disconnect, PeerDid, Drops, DistinctIds;
    var i := PlaceOf(server.peers, id);
    InvIsSound(server, clients);
    if i < |server.peers| {
      TimerDrops(server, i, clients);
    }
    OnlyPlace(server, id, clients);
  }

  /** When its clock timer fires, it goes in any case. */
  lemma {:induction false} CkTimerDrops(server: Server, id: nat, clients: Clients)
    requires Inv(server, clients)
    ensures forall p :: p in OnCkTimer(server, id).peers <==> p in server.peers && p.id != id
  {
    hide Disconnect, PeerDid, Drops, DistinctIds;
    var i := PlaceOf(server.peers, id);
    if i < |server.peers| {
      TimerDrops(server, i, clients);
    }
    OnlyPlace(server, id, clients);
  }

  lemma {:induction false} TimerDrops(server: Server, i: nat, clients: Clients)
    requires Inv(server, clients) && i < |server.peers|
    ensures forall p :: p in PeerDid(server, i, Disconnect(server.peers[i].peer)).peers <==>
              p in server.peers && p.id != server.peers[i].id
  {
    assert server.peers[i] in server.peers;
    DisconnectDrops(server.peers[i].peer);
    InvIsSound(server, clients);
    OnlyOneChanges(server, i, Disconnect(server.peers[i].peer));
    hide Disconnect, PeerDid, Drops, DistinctIds;
  }

  lemma {:induction false} OnlyPlace(server: Server, id: nat, clients: Clients)
    requires Inv(server, clients)
    ensures var i := PlaceOf(server.peers, id);
            && (forall p | p in server.peers :: p.id == id <==> i < |server.peers| && p == server.peers[i])
            && (forall p | p in server.peers :: p.peer.status != NOT_CONNECTED)
  {
    InvIsSound(server, clients);
    forall p | p in server.peers
      ensures var i := PlaceOf(server.peers, id); p.id == id <==> i < |server.peers| && p == server.peers[i]
    {
      var j :| 0 <= j < |server.peers| && server.peers[j] == p;
    }
  }

  // ----- BY

  /** A BY of the client with this initiator, which comes by `x.port`. */
  predicate IsBy(x: Packet, id: uint32, clients: Clients) {
    && id in clients && |x.buf| == 16 && IsCommand(x.buf) && U16(x.buf, 2) == BY && U32(x.buf, 4) == 2
    && U32(x.buf, 8) == id && U32(x.buf, 12) == clients[id]
  }

  /** The peers of other clients are the same, and the one of this client has no port that it had not before. */
  ghost predicate OnlyLess(before: Server, after: Server, id: uint32, port: Port) {
    && (forall p: ServerPeer | p.peer.initiatorId != id :: p in after.peers <==> p in before.peers)
    && (forall p | p in after.peers && p.peer.initiatorId == id ::
          && !HasBit(p.peer.status, port)
          && exists q :: q in before.peers && q.peer.initiatorId == id && WithinBits(p, q))
  }

  ghost predicate WithinBits(p: ServerPeer, q: ServerPeer) {
    forall port :: HasBit(p.peer.status, port) ==> HasBit(q.peer.status, port)
  }

  lemma {:induction false} ByIsFor(server: Server, x: Packet, id: uint32, clients: Clients)
    requires IsBy(x, id, clients)
    ensures FindByPacket(server.peers, x.buf, x.port) == Success(FindBySsrc(server.peers, clients[id]))
    ensures !IsInvitation(x.buf) && FromClient(x.buf, clients)
  {
    hide U16, U32, FindBySsrc;
    CommandOctetsAre(x.buf);
  }

  /** Where no peer has the initiator, none has the client's SSRC. */
  lemma {:induction false} NobodyHasSsrc(server: Server, id: uint32, clients: Clients)
    requires Inv(server, clients) && Distinct(clients) && id in clients
    requires forall p | p in server.peers :: p.peer.initiatorId != id
    ensures FindBySsrc(server.peers, clients[id]) == |server.peers|
  {
    hide FindBySsrc;
    forall j | 0 <= j < |server.peers|
      ensures server.peers[j].peer.remoteSsrc != clients[id]
    {
      assert server.peers[j] in server.peers;
    }
    var _ := FindBySsrc(server.peers, clients[id]);
  }

  /** What the peer of the client makes of the BY. */
  lemma {:induction false} ByIsHeard(p: Peer, x: Packet, id: uint32, clients: Clients)
    requires p.Valid() && IsBy(x, id, clients) && p.remoteSsrc == clients[id] && p.initiatorId == id
    ensures var s := DataReady(p, x.buf, x.beyond, x.port, x.now, x.journal);
            && s.peer.initiatorId == id && !HasBit(s.peer.status, x.port)
            && forall port :: HasBit(s.peer.status, port) ==> HasBit(p.status, port)
  {
    hide U16, U32;
    ByDisconnectsIff(p, x.buf, x.port);
    assert DataReady(p, x.buf, x.beyond, x.port, x.now, x.journal) == OnBy(p, x.buf, x.port);
    assert LeavesMe(p, x.buf);
  }

  lemma {:induction false} ByTakesPort(server: Server, x: Packet, id: uint32, clients: Clients)
    requires Inv(server, clients) && Distinct(clients) && IsBy(x, id, clients)
    ensures Inv(OnPacket(server, x).0, clients) && OnlyLess(server, OnPacket(server, x).0, id, x.port)
  {
    hide OnPacket, DataReady, FindByPacket, IsBy;
    ByIsFor(server, x, id, clients);
    OnPacketKeeps(server, x, clients);
    if i :| 0 <= i < |server.peers| && server.peers[i].peer.initiatorId == id {
      ByTakesPortAt(server, x, id, i, clients);
    } else {
      forall p | p in server.peers
        ensures p.peer.initiatorId != id
      {
        var j :| 0 <= j < |server.peers| && server.peers[j] == p;
      }
      ByOfNobody(server, x, id, clients);
    }
  }

  lemma {:induction false} ByOfNobody(server: Server, x: Packet, id: uint32, clients: Clients)
    requires Inv(server, clients) && Distinct(clients) && IsBy(x, id, clients)
    requires forall p | p in server.peers :: p.peer.initiatorId != id
    ensures OnPacket(server, x) == (server, Pass)
  {
    NobodyHasSsrc(server, id, clients);
    ByIsFor(server, x, id, clients);
    hide FindByPacket, IsInvitation, DataReady, IsBy;
  }

  lemma {:induction false} ByTakesPortAt(server: Server, x: Packet, id: uint32, i: nat, clients: Clients)
    requires Inv(server, clients) && Distinct(clients) && IsBy(x, id, clients)
    requires i < |server.peers| && server.peers[i].peer.initiatorId == id
    ensures OnlyLess(server, OnPacket(server, x).0, id, x.port)
  {
    hide Inv, OnPacket, DataReady, Drops, FindByPacket, IsBy, FindBySsrc, FindByInitiator, PlaceOf;
    var q := server.peers[i];
    InvIsSound(server, clients);
    PeerIsListed(server, i, clients);
    OnePeerOfClient(server, i, clients);
    FindIs(server.peers, i);
    ByIsFor(server, x, id, clients);
    PacketChangesItsPeer(server, i, x, clients);
    ByIsHeard(q.peer, x, id, clients);
    var s := DataReady(q.peer, x.buf, x.beyond, x.port, x.now, x.journal);
    LessIsLess(server, OnPacket(server, x).0, i, s, x.port);
  }

  lemma {:induction false} PeerIsListed(server: Server, i: nat, clients: Clients)
    requires Inv(server, clients) && i < |server.peers|
    ensures ListsClient(server.peers[i], clients)
  {
    assert server.peers[i] in server.peers;
  }

  lemma {:induction false} LessIsLess(server: Server, after: Server, i: nat, s: Step, port: Port)
    requires i < |server.peers|
    requires forall j | 0 <= j < |server.peers| && j != i ::
               && server.peers[j].peer.initiatorId != server.peers[i].peer.initiatorId
               && server.peers[j].id != server.peers[i].id
    requires var q := server.peers[i];
             && (forall p :: p in after.peers <==>
                   (p in server.peers && p.id != q.id) || (p == ServerPeer(q.id, s.peer) && !Drops(s.raised)))
             && s.peer.initiatorId == q.peer.initiatorId && !HasBit(s.peer.status, port)
             && forall at :: HasBit(s.peer.status, at) ==> HasBit(q.peer.status, at)
    ensures OnlyLess(server, after, server.peers[i].peer.initiatorId, port)
  {
    hide Drops, HasBit;
    var q := server.peers[i];
    assert WithinBits(ServerPeer(q.id, s.peer), q);
    assert q in server.peers;
    forall p | p in server.peers
      ensures p.id != q.id <==> p.peer.initiatorId != q.peer.initiatorId
    {
      var j :| 0 <= j < |server.peers| && server.peers[j] == p;
    }
  }

  /**
    * When a client says BY on both ports, in either order and whether or not it is listed,
    * its peer goes, and no other one.
    */
  lemma {:induction false} ByesRemovePeer(server: Server, x: Packet, y: Packet, id: uint32, clients: Clients)
    requires Inv(server, clients) && Distinct(clients)
    requires IsBy(x, id, clients) && IsBy(y, id, clients) && x.port != y.port
    ensures Inv(OnPacket(server, x).0, clients)
    ensures forall p :: p in OnPacket(OnPacket(server, x).0, y).0.peers <==>
              p in server.peers && p.peer.initiatorId != id
  {
    var middle := OnPacket(server, x).0;
    ByTakesPort(server, x, id, clients);
    ByTakesPort(middle, y, id, clients);
    var end := OnPacket(middle, y).0;
    hide OnPacket, IsBy;
    forall p | p in end.peers
      ensures p.peer.initiatorId != id
    {
      HasSomeBit(p.peer.status, x.port, y.port);
    }
  }

  lemma {:induction false} HasSomeBit(status: Status, a: Port, b: Port)
    requires a != b
    ensures status != NOT_CONNECTED ==> HasBit(status, a) || HasBit(status, b)
  {}
}
