/**
  * From packets to messages, over any number of packets: what `parse_midi` makes of every
  * packet whose MIDI list is well formed, how segments of a SysEx are put together across
  * packets, and the way of a SysEx from the ALSA cutter of src/aseq.cpp to the far peer.
  */
module SysexPath {
  import opened Wrappers
  import opened IoBytes
  import opened MidiList
  import opened RtpPeers
  import opened SysexCutter

  // ----- one packet

  const NO_JOURNAL := Journal([], 0, Pass)

  /** Where the MIDI list starts, and how long the header says that it is. */
  function ListStart(buf: seq<byte>): nat
    requires |buf| >= 13
  {
    if buf[12] >= 0x80 then 14 else 13
  }

  function ListLength(buf: seq<byte>): nat
    requires |buf| >= 13 && |buf| >= ListStart(buf)
  {
    if buf[12] >= 0x80 then buf[12] as int % 0x10 * 0x100 + buf[13] as int else buf[12] as int % 0x10
  }

  predicate HasJournal(buf: seq<byte>)
    requires |buf| >= 13
  {
    buf[12] / 0x40 % 2 == 1
  }

  /**
    * An RTP-MIDI packet from `ssrc` with the MIDI list `list` (RFC 6295, section 3). What
    * the RTP header says besides, the P flag, the marker and a journal do not matter.
    */
  predicate CarriesList(buf: seq<byte>, ssrc: uint32, list: List) {
    && |buf| >= 13 && |buf| >= ListStart(buf)
    && buf[1] % 0x80 == 0x61
    && U32(buf, 8) == ssrc
    && ListStart(buf) + ListLength(buf) <= |buf|
    && buf[ListStart(buf)..ListStart(buf) + ListLength(buf)] == EncodeList(list)
    && (buf[12] / 0x20 % 2 == 1 <==> list.first != [])
    && WellFormedList(list)
  }

  /** The SysEx that the peer is putting together. */
  function Pending(p: Peer): Option<seq<byte>>
    requires p.Valid()
  {
    Abstract(Decoder(p.running, p.sysex, [])).pending
  }

  lemma {:induction false} ListSplit(buf: seq<byte>, pos: nat, list: List)
    requires pos + |EncodeList(list)| <= |buf| && buf[pos..pos + |EncodeList(list)|] == EncodeList(list)
    ensures var start, rest := pos + |list.first|, EncodeEntries(list.entries);
            && |EncodeList(list)| == |list.first| + |rest|
            && buf[pos..start] == list.first && buf[start..start + |rest|] == rest
  {
    SliceAt(buf, pos, EncodeList(list), |list.first|);
    assert EncodeList(list)[..|list.first|] == list.first;
    assert EncodeList(list)[|list.first|..] == EncodeEntries(list.entries);
  }

  lemma {:induction false} OnListReceives(p: Peer, buf: seq<byte>, beyond: byte, pos: nat, list: List)
    requires p.Valid() && 1 <= pos && WellFormedList(list)
    requires pos + |EncodeList(list)| <= |buf| && buf[pos..pos + |EncodeList(list)|] == EncodeList(list)
    ensures var s := OnList(p, buf, beyond, pos, |EncodeList(list)|, list.first != []);
            var (r, o) := ReceiveAll(Receiver(Pending(p), []), Commands(list.entries));
            && s.peer.Valid() && Pending(s.peer) == r.pending
            && s.peer.(running := p.running, sysex := p.sysex) == p
            && s.raised == MidiEvents(r.events)
            && s.outcome == o
  {
    hide DecodeList, ReceiveAll, EncodeEntries, EncodeList, WellFormedEntries, IsDelta, ReadDelta;
    ListSplit(buf, pos, list);
    if list.first != [] {
      ReadDeltaAdvances(buf, pos, list.first);
    }
    ListRefines(buf, beyond, pos + |list.first|, list.entries, Decoder(0, p.sysex, []));
    assert Abstract(Decoder(0, p.sysex, [])) == Receiver(Pending(p), []);
  }

  /**
    * Every well-formed packet of the connected peer: its commands are received one after
    * the other, and nothing else about the peer changes but its record of the far
    * sequence number.
    */
  lemma {:induction false} PacketReceived(p: Peer, buf: seq<byte>, beyond: byte, journal: Journal, list: List)
    requires p.Valid() && CarriesList(buf, p.remoteSsrc, list) && journal.outcome.Pass?
    ensures var s := ParseMidi(p, buf, beyond, journal);
            var (r, o) := ReceiveAll(Receiver(Pending(p), []), Commands(list.entries));
            && s.peer.Valid() && Pending(s.peer) == r.pending
            && s.peer.(running := p.running, sysex := p.sysex, remoteSeqNr := p.remoteSeqNr) == p
            && s.raised == (if HasJournal(buf) then JournalSignals(p.localSsrc, journal) else []) + MidiEvents(r.events)
            && s.outcome == o
  {
    hide ReceiveAll, OnList, EncodeList, WellFormedList, U16, U32;
    var p1 := p.(remoteSeqNr := U16(buf, 2));
    OnListReceives(p1, buf, beyond, ListStart(buf), list);
    OnListReceives(p1.(remoteSeqNr := journal.seqNr), buf, beyond, ListStart(buf), list);
    assert Pending(p1) == Pending(p) == Pending(p1.(remoteSeqNr := journal.seqNr));
  }

  /** The peer makes of a packet what its list means if and only if AsMeant says so of its commands. */
  lemma {:induction false} PacketReceivedAsMeantIff(p: Peer, buf: seq<byte>, beyond: byte, journal: Journal, list: List)
    requires p.Valid() && CarriesList(buf, p.remoteSsrc, list) && !HasJournal(buf)
    ensures var s, cs := ParseMidi(p, buf, beyond, journal), Commands(list.entries);
            var r := Receiver(Pending(p), []);
            && s.peer.Valid()
            && (s.outcome == Pass && Pending(s.peer) == MeanAll(r, cs).pending
                && s.raised == MidiEvents(MeanAll(r, cs).events)
                <==> AsMeant(r, cs))
  {
    hide ReceiveAll, MeanAll, AsMeant, Possible, ParseMidi, WellFormedEntries;
    var quiet, r, cs := journal.(outcome := Pass), Receiver(Pending(p), []), Commands(list.entries);
    EntriesArePossible(list.entries, 0);
    hide CarriesList;
    PacketReceived(p, buf, beyond, quiet, list);
    JournalUnused(p, buf, beyond, journal, quiet);
    ReceivedAsMeantIff(r, cs);
    MidiEventsInjective(ReceiveAll(r, cs).0.events, MeanAll(r, cs).events);
  }

  lemma {:induction false} MidiEventsInjective(a: seq<Message>, b: seq<Message>)
    ensures MidiEvents(a) == MidiEvents(b) <==> a == b
  {
    if a != [] && b != [] {
      MidiEventsInjective(a[1..], b[1..]);
      assert a == [a[0]] + a[1..] && b == [b[0]] + b[1..];
      MidiEventsHead(a);
      MidiEventsHead(b);
    }
  }

  lemma {:induction false} MidiEventsHead(a: seq<Message>)
    requires a != []
    ensures MidiEvents(a)[0] == MidiEvent(a[0]) && MidiEvents(a)[1..] == MidiEvents(a[1..])
  {}

  /**
    * A list of complete commands, whatever its delta times and its use of running status:
    * exactly the listed messages are raised, in order and with their status octets, if and
    * only if the decoder knows all the commands.
    */
  lemma {:induction false} CompleteListRaisesItsMessages(
    p: Peer, buf: seq<byte>, beyond: byte, journal: Journal, list: List)
    requires p.Valid() && CarriesList(buf, p.remoteSsrc, list) && !HasJournal(buf)
    requires Pending(p).None? && forall c | c in Commands(list.entries) :: IsWhole(c)
    ensures var s, cs := ParseMidi(p, buf, beyond, journal), Commands(list.entries);
            && (s.raised == MidiEvents(Messages(cs)) <==> forall c | c in cs :: Known(c))
            && ((forall c | c in cs :: Known(c)) ==> s.outcome == Pass && s.peer.Valid() && Pending(s.peer).None?)
  {
    hide ReceiveAll, ParseMidi, Known, IsWhole;
    var quiet, cs := journal.(outcome := Pass), Commands(list.entries);
    PacketReceived(p, buf, beyond, quiet, list);
    JournalUnused(p, buf, beyond, journal, quiet);
    CompleteCommands(Receiver(None, []), cs);
    assert [] + Messages(cs) == Messages(cs);
    MidiEventsInjective(ReceiveAll(Receiver(None, []), cs).0.events, Messages(cs));
  }

  lemma {:induction false} JournalUnused(p: Peer, buf: seq<byte>, beyond: byte, a: Journal, b: Journal)
    requires p.Valid() && |buf| >= 13 && !HasJournal(buf)
    ensures ParseMidi(p, buf, beyond, a) == ParseMidi(p, buf, beyond, b)
  {
    hide OnList, U16, U32;
  }

  // ----- framing

  /** The packet of send_midi, read back: its header gives the size and the place of the payload. */
  lemma {:induction false} FramedReadsBack(ssrc: uint32, seqNr: uint16, timestamp: uint32, payload: seq<byte>)
    requires |payload| < 0x1000
    ensures var buf := Framed(ssrc, seqNr, timestamp, payload);
            && |buf| == 12 + |LengthHeader(|payload|)| + |payload|
            && !IsCommand(buf) && buf[1] % 0x80 == 0x61
            && U16(buf, 2) == seqNr && U32(buf, 4) == timestamp && U32(buf, 8) == ssrc
            && ListStart(buf) + ListLength(buf) == |buf|
            && ListLength(buf) == |payload| && buf[ListStart(buf)..] == payload
            && !HasJournal(buf) && buf[12] / 0x20 % 2 == 0
  {
    var buf, n := Framed(ssrc, seqNr, timestamp, payload), |payload|;
    FramedHeader(ssrc, seqNr, timestamp, payload);
    hide Framed, Octets, BigEndian;
    if n >= 16 {
      assert n / 0x100 % 0x10 == n / 0x100;
    }
  }

  lemma {:induction false} FramedHeader(ssrc: uint32, seqNr: uint16, timestamp: uint32, payload: seq<byte>)
    ensures var buf := Framed(ssrc, seqNr, timestamp, payload);
            var k := |LengthHeader(|payload|)|;
            && |buf| == 12 + k + |payload|
            && buf[0] == 0x80 && buf[1] == 0x61
            && U16(buf, 2) == seqNr && U32(buf, 4) == timestamp && U32(buf, 8) == ssrc
            && buf[12] == LengthHeader(|payload|)[0] && (k == 2 ==> buf[13] == LengthHeader(|payload|)[1])
            && buf[12 + k..] == payload
  {
    var buf, h := Framed(ssrc, seqNr, timestamp, payload), RtpHeader(seqNr, timestamp, ssrc);
    assert buf[2..4] == h[2..4] == Octets(seqNr, 2);
    assert buf[4..8] == h[4..8] == Octets(timestamp, 4);
    assert buf[8..12] == h[8..12] == Octets(ssrc, 4);
    PowersOf256();
    BigEndianOfOctets(seqNr, 2);
    BigEndianOfOctets(timestamp, 4);
    BigEndianOfOctets(ssrc, 4);
    hide Octets, BigEndian;
  }

  /**
    * send_midi by a connected peer: a payload goes out, whole and with its true length, if
    * and only if the cursor is at its start and it has at most 4094 octets. It carries the
    * next sequence number, which is used up in any case, and the time.
    */
  lemma {:induction false} FramingIsExact(p: Peer, events: seq<byte>, from: nat, now: uint64)
    requires p.status == CONNECTED
    ensures var s := SendMidi(p, events, from, now);
            && (s.outcome.Pass? <==> from == 0 && |events| <= 4094)
            && s.peer == p.(seqNr := (p.seqNr + 1) % 0x1_0000)
            && (s.outcome.Fail? ==> s.outcome == Fail(EndOfBuffer) && s.raised == [])
            && (s.outcome.Pass? ==>
                  && |s.raised| == 1 && s.raised[0].SendEvent? && s.raised[0].port == MidiPort
                  && var buf := s.raised[0].packet;
                  && |buf| >= 13 && |buf| >= ListStart(buf)
                  && ListLength(buf) == |events| && buf[ListStart(buf)..] == events
                  && U32(buf, 8) == p.localSsrc
                  && U16(buf, 2) == s.peer.seqNr && U32(buf, 4) == now % 0x1_0000_0000)
  {
    if |events| <= 4094 {
      FramedReadsBack(p.localSsrc, (p.seqNr + 1) % 0x1_0000, now % 0x1_0000_0000, events);
    }
    hide Framed;
  }

  lemma {:induction false} FramedCarriesList(ssrc: uint32, seqNr: uint16, timestamp: uint32, entries: seq<Entry>)
    requires WellFormedEntries(entries, 0) && |EncodeEntries(entries)| <= 4094
    ensures CarriesList(Framed(ssrc, seqNr, timestamp, EncodeEntries(entries)), ssrc, List([], entries))
    ensures !HasJournal(Framed(ssrc, seqNr, timestamp, EncodeEntries(entries)))
  {
    hide Framed, EncodeEntries, WellFormedEntries;
    FramedReadsBack(ssrc, seqNr, timestamp, EncodeEntries(entries));
    var buf := Framed(ssrc, seqNr, timestamp, EncodeEntries(entries));
    assert buf[ListStart(buf)..] == buf[ListStart(buf)..|buf|];
    assert EncodeList(List([], entries)) == EncodeEntries(entries);
  }

  // ----- many packets

  /** A packet as the receiver gets it: its octets, and the octet its buffer holds behind them. */
  datatype Incoming = Incoming(buf: seq<byte>, beyond: byte)

  /** The peer on one packet after the other; an exception ends that packet only. */
  function ParseAll(p: Peer, packets: seq<Incoming>): (Peer, seq<Signal>)
    requires p.Valid()
    decreases |packets|
  {
    if packets == [] then (p, [])
    else
      var s := ParseMidi(p, packets[0].buf, packets[0].beyond, NO_JOURNAL);
      StaysValid(p, packets[0].buf, packets[0].beyond, NO_JOURNAL);
      var (last, raised) := ParseAll(s.peer, packets[1..]);
      (last, s.raised + raised)
  }

  lemma {:induction false} StaysValid(p: Peer, buf: seq<byte>, beyond: byte, journal: Journal)
    requires p.Valid()
    ensures ParseMidi(p, buf, beyond, journal).peer.Valid()
  {
    hide DecodeList, U16, U32, JournalSignals, ReadDelta, MidiEvents;
  }

  /** A packet with the payload type of something else, or from somebody else than the peer is bound to. */
  predicate Foreign(buf: seq<byte>, ssrc: uint32) {
    |buf| >= 2 && (buf[1] % 0x80 != 0x61 || (|buf| >= 12 && U32(buf, 8) != ssrc))
  }

  /** Such a packet is not heard: nothing is raised, and of the peer only the far sequence number may change. */
  lemma {:induction false} ForeignIsNotHeard(p: Peer, buf: seq<byte>, beyond: byte, journal: Journal)
    requires p.Valid() && Foreign(buf, p.remoteSsrc)
    ensures var s := ParseMidi(p, buf, beyond, journal);
            && s.raised == [] && (s.outcome.Pass? || |buf| < 4) && s.peer == p.(remoteSeqNr := s.peer.remoteSeqNr)
            && s.peer.remoteSeqNr == if buf[1] % 0x80 == 0x61 then U16(buf, 2) else p.remoteSeqNr
  {
    hide U16, U32, OnList;
  }

  /** The packets that are left without them. */
  function ForMe(packets: seq<Incoming>, ssrc: uint32): seq<Incoming> {
    if packets == [] then []
    else (if Foreign(packets[0].buf, ssrc) then [] else [packets[0]]) + ForMe(packets[1..], ssrc)
  }

  lemma {:induction false} ListsAreForMe(packets: seq<Incoming>, ssrc: uint32, lists: seq<List>)
    requires CarryLists(packets, ssrc, lists)
    ensures ForMe(packets, ssrc) == packets
    decreases |packets|
  {
    if packets != [] {
      assert PlainList(packets[0].buf, ssrc, lists[0]);
      ListsAreForMe(packets[1..], ssrc, lists[1..]);
      assert packets == [packets[0]] + packets[1..];
    }
  }

  function AllCommands(lists: seq<List>): seq<Command> {
    if lists == [] then [] else Commands(lists[0].entries) + AllCommands(lists[1..])
  }

  predicate PlainList(buf: seq<byte>, ssrc: uint32, list: List) {
    CarriesList(buf, ssrc, list) && !HasJournal(buf)
  }

  predicate CarryLists(packets: seq<Incoming>, ssrc: uint32, lists: seq<List>) {
    && |packets| == |lists|
    && forall i | 0 <= i < |packets| :: PlainList(packets[i].buf, ssrc, lists[i])
  }

  lemma {:induction false} ReceiveFromMessages(r: Receiver, c: Command)
    ensures var (r1, o) := Receive(r, c);
            var (alone, o') := Receive(Receiver(r.pending, []), c);
            o == o' && r1 == Receiver(alone.pending, r.events + alone.events)
  {
    hide Encode, Segment;
    assert r.events + [] == r.events;
  }

  /** The messages received before only stay in front of the new ones. */
  lemma {:induction false} ReceiveAllFromMessages(r: Receiver, cs: seq<Command>)
    ensures var (r1, o) := ReceiveAll(r, cs);
            var (alone, o') := ReceiveAll(Receiver(r.pending, []), cs);
            o == o' && r1 == Receiver(alone.pending, r.events + alone.events)
    decreases |cs|
  {
    if cs == [] {
      assert r.events + [] == r.events;
    } else {
      ReceiveFromMessages(r, cs[0]);
      hide Receive;
      var next, alone := Receive(r, cs[0]).0, Receive(Receiver(r.pending, []), cs[0]).0;
      if Receive(r, cs[0]).1.Pass? {
        ReceiveAllFromMessages(next, cs[1..]);
        ReceiveAllFromMessages(alone, cs[1..]);
        var last := ReceiveAll(Receiver(alone.pending, []), cs[1..]).0;
        assert r.events + alone.events + last.events == r.events + (alone.events + last.events);
      }
    }
  }

  /** Lists that come in packets of their own: a command that throws costs the rest of its list only. */
  function ReceiveLists(r: Receiver, lists: seq<List>): Receiver
    decreases |lists|
  {
    if lists == [] then r else ReceiveLists(ReceiveAll(r, Commands(lists[0].entries)).0, lists[1..])
  }

  lemma {:induction false} ReceiveListsFromMessages(r: Receiver, lists: seq<List>)
    ensures var alone := ReceiveLists(Receiver(r.pending, []), lists);
            ReceiveLists(r, lists) == Receiver(alone.pending, r.events + alone.events)
    decreases |lists|
  {
    hide ReceiveAll;
    if lists == [] {
      assert r.events + [] == r.events;
    } else {
      var cs := Commands(lists[0].entries);
      ReceiveAllFromMessages(r, cs);
      var next, alone := ReceiveAll(r, cs).0, ReceiveAll(Receiver(r.pending, []), cs).0;
      ReceiveListsFromMessages(next, lists[1..]);
      ReceiveListsFromMessages(alone, lists[1..]);
      var last := ReceiveLists(Receiver(alone.pending, []), lists[1..]);
      assert r.events + alone.events + last.events == r.events + (alone.events + last.events);
    }
  }

  /**
    * Any run of packets, and any foreign ones among them: the peer receives the lists of its
    * own one after the other, whatever throws in between.
    */
  lemma {:induction false} PacketsReceived(p: Peer, packets: seq<Incoming>, lists: seq<List>)
    requires p.Valid() && CarryLists(ForMe(packets, p.remoteSsrc), p.remoteSsrc, lists)
    ensures var (last, raised) := ParseAll(p, packets);
            var r := ReceiveLists(Receiver(Pending(p), []), lists);
            && last.Valid() && Pending(last) == r.pending && raised == MidiEvents(r.events)
            && last == p.(running := last.running, sysex := last.sysex, remoteSeqNr := last.remoteSeqNr)
    decreases |packets|
  {
    hide ReceiveAll, ParseMidi, CarriesList, HasJournal, Foreign;
    if packets != [] {
      var x := packets[0];
      var s := ParseMidi(p, x.buf, x.beyond, NO_JOURNAL);
      var rest := ForMe(packets[1..], p.remoteSsrc);
      if Foreign(x.buf, p.remoteSsrc) {
        ForeignIsNotHeard(p, x.buf, x.beyond, NO_JOURNAL);
        assert [] + rest == rest;
        PacketsReceived(s.peer, packets[1..], lists);
        assert [] + ParseAll(s.peer, packets[1..]).1 == ParseAll(s.peer, packets[1..]).1;
      } else {
        assert ([x] + rest)[0] == x && ([x] + rest)[1..] == rest;
        OnePacketMore(p, x, rest, lists);
        PacketsReceived(s.peer, packets[1..], lists[1..]);
        var r1 := ReceiveAll(Receiver(Pending(p), []), Commands(lists[0].entries)).0;
        ReceiveListsFromMessages(r1, lists[1..]);
        MidiEventsAppend(r1.events, ReceiveLists(Receiver(r1.pending, []), lists[1..]).events);
      }
    }
  }

  lemma {:induction false} OnePacketMore(p: Peer, x: Incoming, rest: seq<Incoming>, lists: seq<List>)
    requires p.Valid() && CarryLists([x] + rest, p.remoteSsrc, lists)
    ensures lists != [] && CarryLists(rest, p.remoteSsrc, lists[1..])
    ensures var s := ParseMidi(p, x.buf, x.beyond, NO_JOURNAL);
            var (r, _) := ReceiveAll(Receiver(Pending(p), []), Commands(lists[0].entries));
            && s.peer.Valid() && Pending(s.peer) == r.pending && s.raised == MidiEvents(r.events)
            && s.peer == p.(running := s.peer.running, sysex := s.peer.sysex, remoteSeqNr := s.peer.remoteSeqNr)
  {
    hide ReceiveAll, ParseMidi, CarriesList, HasJournal;
    assert ([x] + rest)[0] == x;
    assert PlainList(x.buf, p.remoteSsrc, lists[0]);
    forall i | 0 <= i < |rest|
      ensures PlainList(rest[i].buf, p.remoteSsrc, lists[1..][i])
    {
      assert ([x] + rest)[i + 1] == rest[i];
    }
    PacketReceived(p, x.buf, x.beyond, NO_JOURNAL, lists[0]);
  }

  /** Where nothing throws, it does not matter how the commands are spread over lists. */
  lemma {:induction false} SpreadDoesNotMatter(r: Receiver, lists: seq<List>)
    requires ReceiveAll(r, AllCommands(lists)).1.Pass?
    ensures ReceiveLists(r, lists) == ReceiveAll(r, AllCommands(lists)).0
    decreases |lists|
  {
    hide ReceiveAll;
    if lists == [] {
      ReceiveNone(r);
    } else {
      var cs := Commands(lists[0].entries);
      ReceiveAllAppend(r, cs, AllCommands(lists[1..]));
      SpreadDoesNotMatter(ReceiveAll(r, cs).0, lists[1..]);
    }
  }

  lemma {:induction false} ReceiveNone(r: Receiver)
    ensures ReceiveAll(r, []) == (r, Pass)
  {
  }

  // ----- reassembly

  /** A SysEx as a sender cuts it: one part or several, and whether it is cancelled instead of completed. */
  datatype Sysex = Sysex(parts: seq<seq<byte>>, cancelled: bool)

  predicate WellCut(x: Sysex) {
    |x.parts| >= 1 && forall d | d in x.parts :: DataOctets(d)
  }

  function Flatten(parts: seq<seq<byte>>): seq<byte> {
    if parts == [] then [] else parts[0] + Flatten(parts[1..])
  }

  /** The segments behind the first. */
  function LaterSegments(parts: seq<seq<byte>>, cancelled: bool): seq<Command> {
    if parts == [] then if cancelled then [SysExCancel([])] else []
    else if |parts| == 1 && !cancelled then [SysExLast(parts[0])]
    else [SysExMiddle(parts[0])] + LaterSegments(parts[1..], cancelled)
  }

  function Segments(x: Sysex): seq<Command>
    requires WellCut(x)
  {
    if |x.parts| == 1 && !x.cancelled then [SysEx(x.parts[0])]
    else [SysExFirst(x.parts[0])] + LaterSegments(x.parts[1..], x.cancelled)
  }

  function AllSegments(xs: seq<Sysex>): seq<Command>
    requires forall x | x in xs :: WellCut(x)
  {
    if xs == [] then [] else Segments(xs[0]) + AllSegments(xs[1..])
  }

  /** What the receiver of a SysEx hears: the whole of it, unless it was cancelled, or was cut and has no data. */
  function Heard(x: Sysex): seq<Message> {
    if x.cancelled || (|x.parts| > 1 && Flatten(x.parts) == []) then []
    else [Segment(0xF0, Flatten(x.parts), 0xF7)]
  }

  function AllHeard(xs: seq<Sysex>): seq<Message> {
    if xs == [] then [] else Heard(xs[0]) + AllHeard(xs[1..])
  }

  lemma {:induction false} ReceiveOne(r: Receiver, c: Command)
    ensures ReceiveAll(r, [c]) == Receive(r, c)
  {
    hide Receive;
    assert [c][1..] == [];
  }

  lemma {:induction false} ReceiveHead(r: Receiver, c: Command, cs: seq<Command>)
    requires Receive(r, c).1.Pass?
    ensures ReceiveAll(r, [c] + cs) == ReceiveAll(Receive(r, c).0, cs)
  {
    hide Receive;
    assert ([c] + cs)[1..] == cs;
  }

  lemma {:induction false} FlattenOne(d: seq<byte>)
    ensures Flatten([d]) == d
  {
    assert [d][1..] == [];
  }

  lemma {:induction false} LaterSegmentsReassemble(data: seq<byte>, parts: seq<seq<byte>>, cancelled: bool)
    requires parts != [] || cancelled
    ensures var whole := data + Flatten(parts);
            ReceiveAll(Receiver(Some(data), []), LaterSegments(parts, cancelled))
              == (Receiver(None, if cancelled || whole == [] then [] else [Segment(0xF0, whole, 0xF7)]), Pass)
    decreases |parts|
  {
    hide ReceiveAll, Segment;
    var r := Receiver(Some(data), []);
    if parts == [] {
      ReceiveOne(r, SysExCancel([]));
    } else if |parts| == 1 && !cancelled {
      FlattenOne(parts[0]);
      assert parts == [parts[0]];
      ReceiveOne(r, SysExLast(parts[0]));
      assert [] + [Segment(0xF0, data + parts[0], 0xF7)] == [Segment(0xF0, data + parts[0], 0xF7)];
    } else {
      ReceiveHead(r, SysExMiddle(parts[0]), LaterSegments(parts[1..], cancelled));
      LaterSegmentsReassemble(data + parts[0], parts[1..], cancelled);
      assert data + parts[0] + Flatten(parts[1..]) == data + Flatten(parts);
    }
  }

  lemma {:induction false} SegmentsReassemble(x: Sysex)
    requires WellCut(x)
    ensures ReceiveAll(Receiver(None, []), Segments(x)) == (Receiver(None, Heard(x)), Pass)
  {
    hide ReceiveAll, LaterSegments;
    var r, first := Receiver(None, []), x.parts[0];
    if |x.parts| == 1 && !x.cancelled {
      FlattenOne(first);
      assert x.parts == [first];
      ReceiveOne(r, SysEx(first));
      assert [] + [MessageOf(SysEx(first))] == [Segment(0xF0, first, 0xF7)];
    } else {
      ReceiveHead(r, SysExFirst(first), LaterSegments(x.parts[1..], x.cancelled));
      assert x.parts[1..] == [] ==> x.cancelled;
      LaterSegmentsReassemble(first, x.parts[1..], x.cancelled);
    }
  }

  /** Any run of SysEx messages, each cut anyhow and completed or cancelled: nothing of one gets into another. */
  lemma {:induction false} AllSegmentsReassemble(xs: seq<Sysex>)
    requires forall x | x in xs :: WellCut(x)
    ensures ReceiveAll(Receiver(None, []), AllSegments(xs)) == (Receiver(None, AllHeard(xs)), Pass)
    decreases |xs|
  {
    hide ReceiveAll, Segments, Heard;
    var r := Receiver(None, []);
    if xs == [] {
      ReceiveNone(r);
    } else {
      SegmentsReassemble(xs[0]);
      ReceiveAllAppend(r, Segments(xs[0]), AllSegments(xs[1..]));
      ReceiveAllFromMessages(Receiver(None, Heard(xs[0])), AllSegments(xs[1..]));
      AllSegmentsReassemble(xs[1..]);
    }
  }

  /** The same over packets: however the segments are spread over lists and the lists over packets. */
  lemma {:induction false} PacketsReassemble(p: Peer, packets: seq<Incoming>, lists: seq<List>, xs: seq<Sysex>)
    requires p.Valid() && Pending(p).None? && CarryLists(ForMe(packets, p.remoteSsrc), p.remoteSsrc, lists)
    requires forall x | x in xs :: WellCut(x)
    requires AllCommands(lists) == AllSegments(xs)
    ensures var (last, raised) := ParseAll(p, packets);
            raised == MidiEvents(AllHeard(xs)) && last.Valid() && Pending(last).None?
  {
    hide ReceiveAll, ParseAll, AllCommands, AllSegments, CarryLists, ForMe;
    AllSegmentsReassemble(xs);
    PacketsReceived(p, packets, lists);
    SpreadDoesNotMatter(Receiver(None, []), lists);
  }

  lemma {:induction false} LaterSegmentsContinue(parts: seq<seq<byte>>, cancelled: bool)
    ensures forall c | c in LaterSegments(parts, cancelled) :: Continues(c)
    decreases |parts|
  {
    if parts != [] && (|parts| > 1 || cancelled) {
      LaterSegmentsContinue(parts[1..], cancelled);
    }
  }

  /**
    * A first segment that is lost on the way: whatever packets the later ones come in, each
    * of them is raised as if it were a message, although none of it means anything.
    */
  lemma {:induction false} LostFirstSegment(p: Peer, packets: seq<Incoming>, lists: seq<List>, x: Sysex)
    requires p.Valid() && Pending(p).None? && CarryLists(ForMe(packets, p.remoteSsrc), p.remoteSsrc, lists)
    requires WellCut(x) && AllCommands(lists) == LaterSegments(x.parts[1..], x.cancelled)
    ensures var (last, raised) := ParseAll(p, packets);
            && raised == MidiEvents(Messages(AllCommands(lists))) && last.Valid() && Pending(last).None?
            && MeanAll(Receiver(None, []), AllCommands(lists)) == Receiver(None, [])
  {
    hide ReceiveAll, ParseAll, AllCommands, LaterSegments, CarryLists, ForMe, Messages, Continues, MeanAll;
    var cs := AllCommands(lists);
    LaterSegmentsContinue(x.parts[1..], x.cancelled);
    StraySegmentsAreRaised(Receiver(None, []), cs);
    assert [] + Messages(cs) == Messages(cs);
    PacketsReceived(p, packets, lists);
    SpreadDoesNotMatter(Receiver(None, []), lists);
  }

  /**
    * A segment that never comes: while a SysEx is pending, a packet that goes on with
    * anything else raises nothing, and leaves it pending.
    */
  lemma {:induction false} PendingSysexRefusesTheRest(p: Peer, buf: seq<byte>, beyond: byte, list: List)
    requires p.Valid() && CarriesList(buf, p.remoteSsrc, list) && !HasJournal(buf)
    requires Pending(p).Some? && list.entries != []
    requires !Continues(list.entries[0].command)
    ensures var s := ParseMidi(p, buf, beyond, NO_JOURNAL);
            && s.raised == [] && s.peer.Valid() && Pending(s.peer) == Pending(p)
            && s.outcome == Fail(if Unlisted(list.entries[0].command) then BadMidiPacket else BadSysEx)
  {
    hide ParseMidi, CarriesList;
    PacketReceived(p, buf, beyond, NO_JOURNAL, list);
    assert Commands(list.entries)[0] == list.entries[0].command;
  }

  // ----- end to end

  /** The packets that a peer sends when it is given one payload after the other, at the times of `clock`. */
  function SendAll(p: Peer, payloads: seq<Message>, clock: nat -> uint64): seq<seq<byte>>
    decreases |payloads|
  {
    if payloads == [] then []
    else
      var s := SendMidi(p, payloads[0], 0, clock(|payloads|));
      Sent(s.raised) + SendAll(s.peer, payloads[1..], clock)
  }

  function Sent(raised: seq<Signal>): seq<seq<byte>> {
    if raised == [] then []
    else (if raised[0].SendEvent? then [raised[0].packet] else []) + Sent(raised[1..])
  }

  predicate IsFramed(packet: seq<byte>, ssrc: uint32, seqNr: uint16, now: uint64, payload: seq<byte>) {
    packet == Framed(ssrc, seqNr, now % 0x1_0000_0000, payload)
  }

  /** The packets are the payloads, framed in order, with the time at which each left, and numbered without a gap. */
  ghost predicate AreFramed(
    packets: seq<seq<byte>>, ssrc: uint32, seqNr: uint16, payloads: seq<Message>, clock: nat -> uint64)
  {
    && |packets| == |payloads|
    && forall i | 0 <= i < |packets| ::
         IsFramed(packets[i], ssrc, (seqNr + 1 + i) % 0x1_0000, clock(|payloads| - i), payloads[i])
  }

  lemma {:induction false} OneMoreFramed(
    first: seq<byte>, rest: seq<seq<byte>>, ssrc: uint32, seqNr: uint16, payloads: seq<Message>, clock: nat -> uint64)
    requires payloads != [] && IsFramed(first, ssrc, (seqNr + 1) % 0x1_0000, clock(|payloads|), payloads[0])
    requires AreFramed(rest, ssrc, (seqNr + 1) % 0x1_0000, payloads[1..], clock)
    ensures AreFramed([first] + rest, ssrc, seqNr, payloads, clock)
  {
    hide IsFramed;
    var all := [first] + rest;
    forall i | 0 <= i < |all|
      ensures IsFramed(all[i], ssrc, (seqNr + 1 + i) % 0x1_0000, clock(|payloads| - i), payloads[i])
    {
      if i > 0 {
        NumbersWrap(seqNr, i);
        assert all[i] == rest[i - 1] && payloads[i] == payloads[1..][i - 1];
      }
    }
  }

  lemma {:induction false} SendAllFrames(p: Peer, payloads: seq<Message>, clock: nat -> uint64)
    requires p.status == CONNECTED
    requires forall m | m in payloads :: |m| <= 4094
    ensures AreFramed(SendAll(p, payloads, clock), p.localSsrc, p.seqNr, payloads, clock)
    decreases |payloads|
  {
    if payloads != [] {
      hide IsFramed, AreFramed, SendMidi, Sent;
      var now := clock(|payloads|);
      var s := SendMidi(p, payloads[0], 0, now);
      SentByMidi(p, payloads[0], now);
      SendAllFrames(s.peer, payloads[1..], clock);
      var sent := Sent(s.raised);
      assert sent == [sent[0]];
      OneMoreFramed(sent[0], SendAll(s.peer, payloads[1..], clock), p.localSsrc, p.seqNr, payloads, clock);
    }
  }

  lemma {:induction false} NumbersWrap(n: nat, i: nat)
    requires i > 0
    ensures ((n + 1) % 0x1_0000 + 1 + (i - 1)) % 0x1_0000 == (n + 1 + i) % 0x1_0000
  {}

  lemma {:induction false} SentByMidi(p: Peer, payload: Message, now: uint64)
    requires p.status == CONNECTED && |payload| <= 4094
    ensures var s := SendMidi(p, payload, 0, now);
            && |Sent(s.raised)| == 1
            && IsFramed(Sent(s.raised)[0], p.localSsrc, (p.seqNr + 1) % 0x1_0000, now, payload)
            && s.peer == p.(seqNr := (p.seqNr + 1) % 0x1_0000)
  {
    hide Framed;
    var s := SendMidi(p, payload, 0, now);
    var packet := Framed(p.localSsrc, s.peer.seqNr, now % 0x1_0000_0000, payload);
    assert s.raised == [SendEvent(packet, MidiPort)] && s.raised[1..] == [];
  }

  function FragmentLists(cs: seq<Command>): (lists: seq<List>)
    ensures |lists| == |cs| && forall i | 0 <= i < |cs| :: lists[i] == List([], [Entry(cs[i], [])])
  {
    seq(|cs|, i requires 0 <= i < |cs| => List([], [Entry(cs[i], [])]))
  }

  lemma {:induction false} CommandsOfFragments(cs: seq<Command>)
    ensures AllCommands(FragmentLists(cs)) == cs
    decreases |cs|
  {
    if cs != [] {
      var lists := FragmentLists(cs);
      CommandsOfFragments(cs[1..]);
      assert lists[1..] == FragmentLists(cs[1..]);
      assert Commands(lists[0].entries) == [cs[0]] by {
        assert lists[0].entries[1..] == [];
      }
      assert cs == [cs[0]] + cs[1..];
    }
  }

  lemma {:induction false} FragmentCarriesList(packet: seq<byte>, ssrc: uint32, seqNr: uint16, now: uint64, c: Command)
    requires IsFramed(packet, ssrc, seqNr, now, Encode(c))
    requires WellFormed(c, 0) && |Encode(c)| <= 4094
    ensures PlainList(packet, ssrc, List([], [Entry(c, [])]))
  {
    hide Framed, WellFormed, Encode, CarriesList;
    var entries := [Entry(c, [])];
    assert entries[1..] == [];
    assert EncodeEntries(entries) == Encode(c);
    FramedCarriesList(ssrc, seqNr, now % 0x1_0000_0000, entries);
  }

  /**
    * A SysEx of any length, cut, sent by a connected peer and received in order by the peer
    * at the other end, whatever foreign packets come in between: exactly one message comes
    * out, and it is the SysEx.
    */
  lemma {:induction false} SysexArrivesWhole(
    sender: Peer, receiver: Peer, d: seq<byte>, clock: nat -> uint64, packets: seq<Incoming>)
    requires sender.status == CONNECTED
    requires receiver.Valid() && receiver.remoteSsrc == sender.localSsrc && Pending(receiver).None?
    requires DataOctets(d)
    requires var sent, mine := SendAll(sender, Cut(d, true), clock), ForMe(packets, sender.localSsrc);
             |mine| == |sent| && forall i | 0 <= i < |sent| :: mine[i].buf == sent[i]
    ensures var (last, raised) := ParseAll(receiver, packets);
            raised == [MidiEvent([0xF0] + d + [0xF7])] && last.Valid() && Pending(last).None?
  {
    hide Cut, CutCommands, SendAll, ParseAll, ReceiveAll, Encode, WellFormed, IsFramed, PlainList, ForMe;
    var ms, cs, ssrc := Cut(d, true), CutCommands(d, true), sender.localSsrc;
    var mine := ForMe(packets, ssrc);
    CutEncodesCommands(d, true);
    assert forall m | m in ms :: |m| <= 4094;
    SendAllFrames(sender, ms, clock);
    var lists := FragmentLists(cs);
    forall i | 0 <= i < |mine| ensures PlainList(mine[i].buf, ssrc, lists[i]) {
      FragmentCarriesList(mine[i].buf, ssrc, (sender.seqNr + 1 + i) % 0x1_0000, clock(|ms| - i), cs[i]);
    }
    CommandsOfFragments(cs);
    CutIsReceived([], d, true);
    PacketsReceived(receiver, packets, lists);
    SpreadDoesNotMatter(Receiver(None, []), lists);
    assert [] + d == d;
    assert Segment(0xF0, d, 0xF7) == [0xF0] + d + [0xF7];
    MidiEventOne(Segment(0xF0, d, 0xF7));
  }

  lemma {:induction false} MidiEventOne(m: Message)
    ensures MidiEvents([m]) == [MidiEvent(m)]
  {
  }
}
