/**
  * The MIDI list of an RTP-MIDI packet (RFC 6295, section 3), as lib/rtppeer.cpp decodes it.
  *
  * The first half says what the loops of the decoder compute on any octets, well-formed
  * or not. The second half is the grammar of the RFC and a receiver that works on whole
  * commands; the two are connected by `ListRefines`.
  */
module MidiList {
  import opened Wrappers
  import opened IoBytes

  type Message = seq<byte>

  // ----- delta times (RFC 6295, section 3.1)

  datatype Delta = Delta(value: uint32, end: nat)

  /** `acc` shifted left by seven bits in 32, with the value bits of `b` below. */
  function ShiftIn(acc: uint32, b: byte): uint32 {
    (acc * 0x80) % 0x1_0000_0000 + b % 0x80
  }

  /** The loop of read_delta_time: `acc` is what the octets before `pos` amount to. */
  function DeltaFrom(buf: seq<byte>, pos: nat, acc: uint32): (r: Result<Delta>)
    ensures r.Success? ==> pos < r.value.end <= |buf|
    ensures r.Failure? ==> r.error == EndOfBuffer
    decreases |buf| - pos
  {
    if pos >= |buf| then Failure(EndOfBuffer)
    else
      var value := ShiftIn(acc, buf[pos]);
      if buf[pos] >= 0x80 then DeltaFrom(buf, pos + 1, value) else Success(Delta(value, pos + 1))
  }

  /** One turn of that loop. */
  lemma {:induction false} DeltaTurn(buf: seq<byte>, pos: nat, acc: uint32)
    requires pos < |buf|
    ensures var value := ShiftIn(acc, buf[pos]);
            DeltaFrom(buf, pos, acc)
              == if buf[pos] >= 0x80 then DeltaFrom(buf, pos + 1, value) else Success(Delta(value, pos + 1))
  {
  }

  lemma {:induction false} DeltaEnds(buf: seq<byte>, pos: nat, acc: uint32)
    requires pos >= |buf|
    ensures DeltaFrom(buf, pos, acc) == Failure(EndOfBuffer)
  {
  }

  function ReadDelta(buf: seq<byte>, pos: nat): (r: Result<Delta>)
    ensures r.Success? ==> pos < r.value.end <= |buf|
    ensures r.Failure? ==> r.error == EndOfBuffer
  {
    DeltaFrom(buf, pos, 0)
  }

  function Pow128(n: nat): (p: nat)
    ensures p > 0
  {
    if n == 0 then 1 else 0x80 * Pow128(n - 1)
  }

  /** One or more octets, all marked except the last. */
  predicate IsDelta(s: seq<byte>) {
    |s| > 0 && s[|s| - 1] < 0x80 && forall i | 0 <= i < |s| - 1 :: s[i] >= 0x80
  }

  /** The value of a delta time in base 128, without the marks. */
  function DeltaValue(s: seq<byte>): nat {
    if s == [] then 0 else DeltaValue(s[..|s| - 1]) * 0x80 + s[|s| - 1] % 0x80
  }

  function Marked(v: nat, n: nat): (s: seq<byte>)
    ensures |s| == n && forall i | 0 <= i < n :: s[i] >= 0x80
  {
    if n == 0 then [] else Marked(v / 0x80, n - 1) + [0x80 + v % 0x80]
  }

  /** The form of `v` with `n` octets; a form longer than `v` needs starts with 0x80. */
  function DeltaForm(v: nat, n: nat): (s: seq<byte>)
    requires n > 0
    ensures |s| == n && IsDelta(s)
  {
    Marked(v / 0x80, n - 1) + [v % 0x80]
  }

  lemma {:induction false} DeltaValueAppend(s: seq<byte>, b: byte)
    ensures DeltaValue(s + [b]) == DeltaValue(s) * 0x80 + b % 0x80
  {
    assert (s + [b])[..|s|] == s;
  }

  lemma {:induction false} MarkedValue(v: nat, n: nat)
    requires v < Pow128(n)
    ensures DeltaValue(Marked(v, n)) == v
  {
    if n > 0 {
      MarkedValue(v / 0x80, n - 1);
      DeltaValueAppend(Marked(v / 0x80, n - 1), 0x80 + v % 0x80);
    }
  }

  lemma {:induction false} DeltaFormValue(v: nat, n: nat)
    requires n > 0 && v < Pow128(n)
    ensures DeltaValue(DeltaForm(v, n)) == v
  {
    hide Marked, DeltaValue;
    MarkedValue(v / 0x80, n - 1);
    DeltaValueAppend(Marked(v / 0x80, n - 1), v % 0x80);
  }

  lemma {:induction false} Remainder32(n: nat, quotient: nat, remainder: uint32)
    requires n == quotient * 0x1_0000_0000 + remainder
    ensures n % 0x1_0000_0000 == remainder
  {
  }

  /** Dropping the high bits at every shift amounts to dropping them once. */
  lemma {:induction false} ShiftedIn(x: nat, b: byte)
    ensures ShiftIn(x % 0x1_0000_0000, b) == (x * 0x80 + b % 0x80) % 0x1_0000_0000
  {
    var q, y, r := x / 0x1_0000_0000, x % 0x1_0000_0000, b % 0x80;
    var k, z := y / 0x200_0000, y % 0x200_0000;
    Remainder32(y * 0x80, k, z * 0x80);
    Remainder32(x * 0x80 + r, q * 0x80 + k, z * 0x80 + r);
  }

  /** The decoder on a delta time `d` of which the first `i` octets have been read. */
  lemma {:induction false} DeltaFromValue(buf: seq<byte>, pos: nat, d: seq<byte>, i: nat)
    requires IsDelta(d) && i < |d|
    requires pos + |d| <= |buf| && buf[pos..pos + |d|] == d
    ensures DeltaFrom(buf, pos + i, DeltaValue(d[..i]) % 0x1_0000_0000)
         == Success(Delta(DeltaValue(d) % 0x1_0000_0000, pos + |d|))
    decreases |d| - i
  {
    hide ShiftIn, DeltaFrom, DeltaValue;
    var x := DeltaValue(d[..i]);
    assert buf[pos + i] == d[i];
    assert d[..i + 1] == d[..i] + [d[i]];
    DeltaValueAppend(d[..i], d[i]);
    ShiftedIn(x, d[i]);
    DeltaTurn(buf, pos + i, x % 0x1_0000_0000);
    if i + 1 == |d| {
      assert d[..i + 1] == d;
    } else {
      DeltaFromValue(buf, pos, d, i + 1);
    }
  }

  lemma {:induction false} ReadDeltaValue(buf: seq<byte>, pos: nat, d: seq<byte>)
    requires IsDelta(d)
    requires pos + |d| <= |buf| && buf[pos..pos + |d|] == d
    ensures ReadDelta(buf, pos) == Success(Delta(DeltaValue(d) % 0x1_0000_0000, pos + |d|))
  {
    DeltaFromValue(buf, pos, d, 0);
    assert d[..0] == [];
  }

  /**
    * read_delta_time undoes every encoding of every value, padded or not, and stops right
    * behind it; only a value that does not fit in 32 bits loses its high bits.
    */
  lemma {:induction false} ReadDeltaInvertsForm(before: seq<byte>, v: nat, n: nat, after: seq<byte>)
    requires n > 0 && v < Pow128(n)
    ensures ReadDelta(before + DeltaForm(v, n) + after, |before|)
         == Success(Delta(v % 0x1_0000_0000, |before| + n))
  {
    var buf := before + DeltaForm(v, n) + after;
    assert buf[|before|..|before| + n] == DeltaForm(v, n);
    ReadDeltaValue(buf, |before|, DeltaForm(v, n));
    DeltaFormValue(v, n);
  }

  /** The four-octet limit of the RFC: every value below 2^28 comes back unchanged. */
  lemma {:induction false} ReadDeltaInvertsRfcForm(before: seq<byte>, v: nat, n: nat, after: seq<byte>)
    requires 1 <= n <= 4 && v < Pow128(n)
    ensures v < 0x1000_0000
    ensures ReadDelta(before + DeltaForm(v, n) + after, |before|) == Success(Delta(v, |before| + n))
  {
    hide ReadDelta, DeltaForm;
    assert Pow128(0) == 1;
    assert Pow128(1) == 0x80 && Pow128(2) == 0x4000;
    assert Pow128(3) == 0x20_0000 && Pow128(4) == 0x1000_0000;
    assert n == 1 || n == 2 || n == 3 || n == 4;
    ReadDeltaInvertsForm(before, v, n, after);
  }

  lemma {:induction false} MarkedOfValue(s: seq<byte>)
    requires forall i | 0 <= i < |s| :: s[i] >= 0x80
    ensures DeltaValue(s) < Pow128(|s|) && Marked(DeltaValue(s), |s|) == s
  {
    if s != [] {
      hide DeltaValue;
      var front, last := s[..|s| - 1], s[|s| - 1];
      MarkedOfValue(front);
      assert s == front + [last];
      DeltaValueAppend(front, last);
      assert DeltaValue(s) / 0x80 == DeltaValue(front);
    } else {
      assert DeltaValue([]) == 0;
    }
  }

  lemma {:induction false} ReadDeltaAdvances(buf: seq<byte>, pos: nat, d: seq<byte>)
    requires IsDelta(d)
    requires pos + |d| <= |buf| && buf[pos..pos + |d|] == d
    ensures ReadDelta(buf, pos).Success? && ReadDelta(buf, pos).value.end == pos + |d|
  {
    ReadDeltaValue(buf, pos, d);
  }

  lemma {:induction false} FormAppended(q: nat, front: seq<byte>, r: nat)
    requires r < 0x80 && Marked(q, |front|) == front
    ensures DeltaForm(q * 0x80 + r, |front| + 1) == front + [r]
  {
    hide Marked;
    assert (q * 0x80 + r) / 0x80 == q;
    assert (q * 0x80 + r) % 0x80 == r;
  }

  /** Every well-formed delta time is the form of a value, so the inversion covers them all. */
  lemma {:induction false} EveryDeltaIsAForm(s: seq<byte>) returns (v: nat)
    requires IsDelta(s)
    ensures v < Pow128(|s|) && DeltaForm(v, |s|) == s
  {
    var n := |s| - 1;
    var front, last := s[..n], s[n];
    MarkedOfValue(front);
    var q := DeltaValue(front);
    FormAppended(q, front, last);
    v := q * 0x80 + last;
    assert v < Pow128(n + 1) by {
      assert Pow128(n + 1) == 0x80 * Pow128(n);
    }
    assert s == front + [last];
  }

  // ----- the length of the next command

  /** The status that `running_status` holds after a command that starts with `b`. */
  function RunningAfter(b: byte, running: byte): byte {
    if 0xF0 <= b <= 0xF7 then 0
    else if 0x80 <= b < 0xF0 then b
    else running
  }

  /** Number of octets of a channel command with this status, 0 for any other octet. */
  function ChannelLength(status: byte): int {
    var high := status / 0x10;
    if high in {0x8, 0x9, 0xA, 0xB, 0xE} then 3
    else if high in {0xC, 0xD} then 2
    else 0
  }

  /** The place of the first octet from `from` on that has its high bit set. */
  function StatusFrom(buf: seq<byte>, from: nat): (r: Option<nat>)
    ensures r.Some? ==> from <= r.value < |buf| && buf[r.value] >= 0x80
    ensures r.Some? ==> forall i | from <= i < r.value :: buf[i] < 0x80
    ensures r.None? ==> forall i | from <= i < |buf| :: buf[i] < 0x80
    decreases |buf| - from
  {
    if from >= |buf| then None
    else if buf[from] >= 0x80 then Some(from)
    else StatusFrom(buf, from + 1)
  }

  /**
    * The length of the system command or data octet at `pos`, where `length` is what the
    * first switch has found. The SysEx scan looks at the octet behind the packet,
    * `beyond`, before it looks at the bound.
    */
  function SystemLength(buf: seq<byte>, beyond: byte, pos: nat, status: byte, length: int): Result<int>
    requires pos < |buf|
  {
    if status in {0xF6, 0xF8, 0xF9, 0xFA, 0xFB, 0xFC, 0xFE, 0xFF} then Success(1)
    else if status in {0xF1, 0xF3} then Success(2)
    else if status == 0xF2 then Success(3)
    else if status in {0xF0, 0xF7, 0xF4} then
      if pos + 1 == |buf| && beyond >= 0x80 then Success(2)
      else
        match StatusFrom(buf, pos + 1)
        case None => Failure(BadMidiPacket)
        case Some(last) => Success(last + 1 - pos)
    else Success(length)
  }

  /** next_midi_packet_length; -1 is a data octet while there is no running status. */
  function NextLength(buf: seq<byte>, beyond: byte, pos: nat, running: byte): (r: Result<int>)
    requires running == 0 || 0x80 <= running < 0xF0
    ensures r.Success? ==> r.value >= -1 && pos < |buf|
    ensures r.Failure? ==> r.error in {EndOfBuffer, BadMidiPacket}
  {
    if pos >= |buf| then Failure(EndOfBuffer)
    else
      var b := buf[pos];
      var status := if b < 0x80 then running else b;
      var length := (if b < 0x80 then -1 else 0) + ChannelLength(status);
      if length <= 0 then SystemLength(buf, beyond, pos, status, length) else Success(length)
  }

  // ----- the list

  /** The part of the decoder's state that a list changes. `sysex` is empty when no SysEx is being put together. */
  datatype Decoder = Decoder(running: byte, sysex: seq<byte>, events: seq<Message>) {
    predicate Valid() {
      && (running == 0 || 0x80 <= running < 0xF0)
      && (sysex == [] || (|sysex| >= 2 && sysex[1] == 0xF0))
    }
  }

  datatype Decoded = Decoded(decoder: Decoder, position: nat, outcome: Outcome)

  /**
    * parse_sysex on the `length` octets at `pos`. The first fragment is stored together
    * with the octet in front of it, and without the octet that ends it.
    */
  function DecodeSysex(buf: seq<byte>, pos: nat, length: nat, d: Decoder): (Decoder, Outcome)
    requires 1 <= pos && pos + length <= |buf| && length >= 1
    requires buf[pos] in {0xF0, 0xF7} ==> length >= 2
    requires d.Valid() && (d.sysex != [] || buf[pos] == 0xF0)
    ensures DecodeSysex(buf, pos, length, d).0.Valid()
  {
    var last := buf[pos + length - 1];
    if d.sysex != [] then
      if buf[pos] != 0xF7 then (d, Fail(BadSysEx))
      else
        var sysex := d.sysex + buf[pos + 1..pos + length - 1];
        if last == 0xF7 then
          var whole := sysex + [0xF7];
          (Decoder(d.running, [], if |whole| == 3 then d.events else d.events + [whole[1..]]), Pass)
        else if last == 0xF4 then (d.(sysex := []), Pass)
        else if last == 0xF0 then (d.(sysex := sysex), Pass)
        else (d.(sysex := sysex), Fail(BadSysEx))
    else if last == 0xF7 then (d.(events := d.events + [buf[pos..pos + length]]), Pass)
    else (d.(sysex := buf[pos - 1..pos + length - 1]), Pass)
  }

  /** What the decoder does with the command of `length` octets at `pos`. */
  function DecodeCommand(buf: seq<byte>, pos: nat, length: nat, d: Decoder): (r: (Decoder, Outcome))
    requires 1 <= pos && pos + length <= |buf| && length >= 1
    requires buf[pos] in {0xF0, 0xF7} ==> length >= 2
    requires d.Valid()
    ensures r.0.Valid() && r.0.running == d.running
  {
    if d.sysex != [] || buf[pos] == 0xF0 then DecodeSysex(buf, pos, length, d)
    else if buf[pos] < 0x80 && d.running != 0 then
      (d.(events := d.events + [[d.running] + buf[pos..pos + length]]), Pass)
    else
      (d.(events := d.events + [buf[pos..pos + length]]), Pass)
  }

  /** One turn of the loop of parse_midi, up to the end of the command. */
  function DecodeOne(buf: seq<byte>, beyond: byte, pos: nat, d: Decoder): (r: Decoded)
    requires 1 <= pos && d.Valid()
    ensures r.decoder.Valid() && (r.outcome.Pass? ==> pos < r.position <= |buf|)
  {
    match NextLength(buf, beyond, pos, d.running)
    case Failure(e) =>
      Decoded(if pos < |buf| then d.(running := RunningAfter(buf[pos], d.running)) else d, pos, Fail(e))
    case Success(length) =>
      var d1 := d.(running := RunningAfter(buf[pos], d.running));
      if length == 0 then Decoded(d1, pos, Fail(BadMidiPacket))
      else if length < 0 then Decoded(d1, pos, Fail(if d1.sysex != [] then BadSysEx else OrphanData))
      else if pos + length > |buf| then Decoded(d1, pos, Fail(EndOfBuffer))
      else
        var (d2, o) := DecodeCommand(buf, pos, length, d1);
        Decoded(d2, if o.Pass? then pos + length else pos, o)
  }

  /** The while loop of parse_midi with `remaining` octets of the list still to come. */
  function DecodeList(buf: seq<byte>, beyond: byte, pos: nat, remaining: int, d: Decoder): (r: Decoded)
    requires 1 <= pos && d.Valid()
    ensures r.decoder.Valid()
    decreases |buf| - pos
  {
    if remaining == 0 then Decoded(d, pos, Pass)
    else
      var r := DecodeOne(buf, beyond, pos, d);
      if r.outcome.Fail? || remaining == r.position - pos then r
      else
        match ReadDelta(buf, r.position)
        case Failure(e) => Decoded(r.decoder, |buf|, Fail(e))
        case Success(delta) => DecodeList(buf, beyond, delta.end, remaining - (delta.end - pos), r.decoder)
  }

  /** One turn of that loop. */
  lemma {:induction false} ListTurn(buf: seq<byte>, beyond: byte, pos: nat, remaining: int, d: Decoder)
    requires 1 <= pos && d.Valid() && remaining != 0
    ensures var r := DecodeOne(buf, beyond, pos, d);
            DecodeList(buf, beyond, pos, remaining, d)
              == if r.outcome.Fail? || remaining == r.position - pos then r
                 else
                   match ReadDelta(buf, r.position)
                   case Failure(e) => Decoded(r.decoder, |buf|, Fail(e))
                   case Success(delta) =>
                     DecodeList(buf, beyond, delta.end, remaining - (delta.end - pos), r.decoder)
  {
    hide DecodeOne, ReadDelta;
  }

  /** The messages so far do not matter to what comes next. */
  lemma {:induction false} CommandKeepsEvents(buf: seq<byte>, pos: nat, length: nat, d: Decoder)
    requires 1 <= pos && pos + length <= |buf| && length >= 1 && d.Valid()
    requires buf[pos] in {0xF0, 0xF7} ==> length >= 2
    ensures var (d2, o) := DecodeCommand(buf, pos, length, d);
            var (alone, o') := DecodeCommand(buf, pos, length, d.(events := []));
            o == o' && d2 == alone.(events := d.events + alone.events)
  {
    assert d.events + [] == d.events;
  }

  lemma {:induction false} TurnKeepsEvents(buf: seq<byte>, beyond: byte, pos: nat, d: Decoder)
    requires 1 <= pos && d.Valid()
    ensures var r := DecodeOne(buf, beyond, pos, d);
            var alone := DecodeOne(buf, beyond, pos, d.(events := []));
            r == alone.(decoder := alone.decoder.(events := d.events + alone.decoder.events))
  {
    hide NextLength, DecodeCommand;
    assert d.events + [] == d.events;
    var next := NextLength(buf, beyond, pos, d.running);
    if next.Success? && next.value > 0 && pos + next.value <= |buf| {
      if buf[pos] in {0xF0, 0xF7} {
        SegmentsAreLong(buf, beyond, pos, d.running);
      }
      CommandKeepsEvents(buf, pos, next.value, d.(running := RunningAfter(buf[pos], d.running)));
    }
  }

  lemma {:induction false} SegmentsAreLong(buf: seq<byte>, beyond: byte, pos: nat, running: byte)
    requires running == 0 || 0x80 <= running < 0xF0
    requires pos < |buf| && buf[pos] in {0xF0, 0xF7}
    requires NextLength(buf, beyond, pos, running).Success?
    ensures NextLength(buf, beyond, pos, running).value >= 2
  {
  }

  // ----- the grammar (RFC 6295, sections 3.1 and 3.2)

  /**
    * A command of a MIDI list. A SysEx is complete or comes in segments:
    * first F0..F0, middle F7..F0, last F7..F7; F7..F4 cancels the segments so far. F5 in
    * place of the F7 at the end stands for an F7 that was dropped by the source. F4 and F5
    * also begin the undefined system common commands, which a closing F7 ends; F9 and FD
    * are the undefined real-time commands.
    */
  datatype Command =
    | Channel(status: byte, args: seq<byte>, abbreviated: bool)
    | Common(octets: seq<byte>)
    | Undefined(octet: byte, data: seq<byte>)
    | RealTime(octet: byte)
    | SysEx(data: seq<byte>)
    | SysExFirst(data: seq<byte>)
    | SysExMiddle(data: seq<byte>)
    | SysExLast(data: seq<byte>)
    | SysExCancel(data: seq<byte>)
    | SysExDropped(data: seq<byte>)
    | SysExLastDropped(data: seq<byte>)

  predicate DataOctets(s: seq<byte>) {
    forall i | 0 <= i < |s| :: s[i] < 0x80
  }

  /** Whether the command may stand where the running status is `running` (0 for none). */
  predicate WellFormed(c: Command, running: byte) {
    match c
    case Channel(status, args, abbreviated) =>
      && 0x80 <= status < 0xF0
      && |args| == (if 0xC0 <= status < 0xE0 then 1 else 2)
      && DataOctets(args)
      && (abbreviated ==> running == status)
    case Common(octets) =>
      && |octets| >= 1 && DataOctets(octets[1..])
      && |octets| == (match octets[0] case 0xF1 => 2 case 0xF2 => 3 case 0xF3 => 2 case 0xF6 => 1 case _ => 0)
    case Undefined(octet, data) => (octet == 0xF4 || octet == 0xF5) && DataOctets(data)
    case RealTime(octet) => 0xF8 <= octet
    case SysEx(data) => DataOctets(data)
    case SysExFirst(data) => DataOctets(data)
    case SysExMiddle(data) => DataOctets(data)
    case SysExLast(data) => DataOctets(data)
    case SysExCancel(data) => DataOctets(data)
    case SysExDropped(data) => DataOctets(data)
    case SysExLastDropped(data) => DataOctets(data)
  }

  function Encode(c: Command): (s: seq<byte>) {
    match c
    case Channel(status, args, abbreviated) => if abbreviated then args else [status] + args
    case Common(octets) => octets
    case Undefined(octet, data) => [octet] + data + [0xF7]
    case RealTime(octet) => [octet]
    case SysEx(data) => [0xF0] + data + [0xF7]
    case SysExFirst(data) => [0xF0] + data + [0xF0]
    case SysExMiddle(data) => [0xF7] + data + [0xF0]
    case SysExLast(data) => [0xF7] + data + [0xF7]
    case SysExCancel(data) => [0xF7] + data + [0xF4]
    case SysExDropped(data) => [0xF0] + data + [0xF5]
    case SysExLastDropped(data) => [0xF7] + data + [0xF5]
  }

  /** Commands whose octets are a status, data and a last octet with its high bit set. */
  predicate IsSegment(c: Command) {
    match c
    case Channel(_, _, _) => false
    case Common(_) => false
    case RealTime(_) => false
    case _ => true
  }

  function RunningNext(c: Command, running: byte): byte {
    match c
    case Channel(status, _, _) => status
    case RealTime(_) => running
    case _ => 0
  }

  /** A command and the delta time behind it; only the last command of a list may have none. */
  datatype Entry = Entry(command: Command, delta: seq<byte>)

  /** A MIDI list; `first` is the delta time in front of the first command, which the Z flag announces. */
  datatype List = List(first: seq<byte>, entries: seq<Entry>)

  predicate WellFormedEntries(entries: seq<Entry>, running: byte) {
    entries == []
    || (&& WellFormed(entries[0].command, running)
        && (IsDelta(entries[0].delta) || (|entries| == 1 && entries[0].delta == []))
        && WellFormedEntries(entries[1..], RunningNext(entries[0].command, running)))
  }

  function EncodeEntries(entries: seq<Entry>): (s: seq<byte>) {
    if entries == [] then []
    else Encode(entries[0].command) + entries[0].delta + EncodeEntries(entries[1..])
  }

  /** The first channel command of a list carries its status, whatever the packet before ended with. */
  predicate WellFormedList(list: List) {
    (list.first == [] || IsDelta(list.first)) && WellFormedEntries(list.entries, 0)
  }

  function EncodeList(list: List): seq<byte> {
    list.first + EncodeEntries(list.entries)
  }

  function Commands(entries: seq<Entry>): (cs: seq<Command>)
    ensures |cs| == |entries|
  {
    if entries == [] then [] else [entries[0].command] + Commands(entries[1..])
  }

  // ----- a receiver of whole commands

  function Segment(first: byte, data: seq<byte>, last: byte): (s: seq<byte>)
    ensures |s| == |data| + 2 && s[0] == first && s[|s| - 1] == last
  {
    [first] + data + [last]
  }

  /** The message a command stands for, with its status or its dropped F7 restored. */
  function MessageOf(c: Command): Message {
    match c
    case Channel(status, args, _) => [status] + args
    case SysExDropped(data) => Segment(0xF0, data, 0xF7)
    case _ => Encode(c)
  }

  /** `pending` is the data of a SysEx whose last segment has not come yet. */
  datatype Receiver = Receiver(pending: Option<seq<byte>>, events: seq<Message>)

  /** The segments that go on with a SysEx. */
  predicate Continues(c: Command) {
    c.SysExMiddle? || c.SysExLast? || c.SysExCancel? || c.SysExLastDropped?
  }

  /**
    * What a command means. A SysEx that comes in segments is one message. Segments that go
    * on with a SysEx of which nothing has come mean nothing. Every other command is a
    * message of its own.
    */
  function Mean(r: Receiver, c: Command): Receiver {
    if r.pending.None? then
      if c.SysExFirst? then r.(pending := Some(c.data))
      else if Continues(c) then r
      else r.(events := r.events + [MessageOf(c)])
    else if c.SysExMiddle? then r.(pending := Some(r.pending.value + c.data))
    else if c.SysExLast? || c.SysExLastDropped? then
      Receiver(None, r.events + [Segment(0xF0, r.pending.value + c.data, 0xF7)])
    else if c.SysExCancel? then r.(pending := None)
    else r.(events := r.events + [MessageOf(c)])
  }

  function MeanAll(r: Receiver, cs: seq<Command>): Receiver
    decreases |cs|
  {
    if cs == [] then r else MeanAll(Mean(r, cs[0]), cs[1..])
  }

  /** The commands that the table of lengths does not have. */
  predicate Unlisted(c: Command) {
    || (c.RealTime? && c.octet == 0xFD)
    || (c.Undefined? && c.octet == 0xF5)
  }

  /** The end of a SysEx that came in segments; without any data it is not passed on. */
  function Complete(r: Receiver, whole: seq<byte>): Receiver {
    Receiver(None, if whole == [] then r.events else r.events + [Segment(0xF0, whole, 0xF7)])
  }

  /**
    * What becomes of a command. One that is not in the table throws, and so does everything
    * but a segment while a SysEx is pending. With nothing pending, such a segment is passed
    * on as if it were a message. The end F5 is not known: at the end of a whole SysEx it is
    * taken for F0, behind other segments it throws when their data is stored.
    */
  function Receive(r: Receiver, c: Command): (Receiver, Outcome) {
    if Unlisted(c) then (r, Fail(BadMidiPacket))
    else if r.pending.None? then
      (if c.SysExFirst? || c.SysExDropped? then r.(pending := Some(c.data))
       else r.(events := r.events + [MessageOf(c)]),
       Pass)
    else
      var whole := r.pending.value + if IsSegment(c) then c.data else [];
      if c.SysExMiddle? then (r.(pending := Some(whole)), Pass)
      else if c.SysExLast? then (Complete(r, whole), Pass)
      else if c.SysExCancel? then (r.(pending := None), Pass)
      else if c.SysExLastDropped? then (r.(pending := Some(whole)), Fail(BadSysEx))
      else (r, Fail(BadSysEx))
  }

  /** Receives commands up to the first that throws. */
  function ReceiveAll(r: Receiver, cs: seq<Command>): (Receiver, Outcome)
    decreases |cs|
  {
    if cs == [] then (r, Pass)
    else
      var (next, o) := Receive(r, cs[0]);
      if o.Fail? then (next, o) else ReceiveAll(next, cs[1..])
  }

  // ----- which lists are received as they are meant

  /**
    * Whether the command is handled at its place: it is in the table, F5 ends no SysEx, a
    * segment goes on with a SysEx that is pending, nothing else comes while one is pending,
    * and what the segments put together is not empty.
    */
  predicate Handled(r: Receiver, c: Command) {
    && !Unlisted(c)
    && if r.pending.None? then !c.SysExDropped? && !Continues(c)
       else c.SysExMiddle? || c.SysExCancel? || (c.SysExLast? && r.pending.value + c.data != [])
  }

  predicate AllHandled(r: Receiver, cs: seq<Command>)
    decreases |cs|
  {
    cs == [] || (Handled(r, cs[0]) && AllHandled(Mean(r, cs[0]), cs[1..]))
  }

  lemma {:induction false} HandledIsMeant(r: Receiver, c: Command)
    requires Handled(r, c)
    ensures Receive(r, c) == (Mean(r, c), Pass)
  {
    if r.pending.Some? {
      assert IsSegment(c);
    }
  }

  lemma {:induction false} AllHandledIsMeant(r: Receiver, cs: seq<Command>)
    requires AllHandled(r, cs)
    ensures ReceiveAll(r, cs) == (MeanAll(r, cs), Pass)
    decreases |cs|
  {
    hide Handled, Receive, Mean;
    if cs != [] {
      HandledIsMeant(r, cs[0]);
      AllHandledIsMeant(Mean(r, cs[0]), cs[1..]);
    }
  }

  /** Behind empty middle segments and an empty last one: what else there is. */
  function AfterEmptyEnd(cs: seq<Command>): (rest: Option<seq<Command>>)
    ensures rest.Some? ==> |rest.value| < |cs| && Continues(cs[0])
    decreases |cs|
  {
    if cs == [] then None
    else if cs[0] == SysExMiddle([]) then AfterEmptyEnd(cs[1..])
    else if cs[0] == SysExLast([]) then Some(cs[1..])
    else None
  }

  /**
    * Whether commands come out as they are meant: each is handled at its place, but for one
    * way in which two mistakes make up for each other. A SysEx with a dropped F7, taken for
    * a first segment, is completed by stray segments behind it if these have no data.
    */
  predicate AsMeant(r: Receiver, cs: seq<Command>)
    decreases |cs|
  {
    if cs == [] then true
    else if Handled(r, cs[0]) then AsMeant(Mean(r, cs[0]), cs[1..])
    else
      && r.pending.None? && cs[0].SysExDropped? && cs[0].data != []
      && var rest := AfterEmptyEnd(cs[1..]);
      rest.Some? && AsMeant(Mean(r, cs[0]), rest.value)
  }

  /** A command that may stand somewhere in a list. */
  ghost predicate Possible(c: Command) {
    exists running: byte :: WellFormed(c, running)
  }

  /** A segment, passed on as if it were a message. */
  predicate Stray(m: Message) {
    m != [] && m[0] == 0xF7
  }

  /** What the stray segments are told apart by: nothing that is meant begins as they do. */
  ghost predicate Clean(meant: Receiver, base: nat) {
    base <= |meant.events| && forall k | base <= k < |meant.events| :: !Stray(meant.events[k])
  }

  /** A stray segment has been passed on since `base`. */
  ghost predicate Tainted(received: Receiver, base: nat) {
    exists k :: base <= k < |received.events| && Stray(received.events[k])
  }

  /** A message is not the one that is meant. */
  ghost predicate Differs(received: Receiver, meant: Receiver) {
    exists k :: 0 <= k < |received.events| && k < |meant.events| && received.events[k] != meant.events[k]
  }

  /** A message is missing for good. */
  ghost predicate Behind(received: Receiver, meant: Receiver) {
    || (received.pending == meant.pending && |received.events| < |meant.events|)
    || (received.pending.Some? && meant.pending.None? && |received.events| + 1 < |meant.events|)
  }

  /** From here on what is received cannot become what is meant. */
  ghost predicate Spoilt(received: Receiver, meant: Receiver, base: nat) {
    && Clean(meant, base) && base <= |received.events|
    && (Tainted(received, base) || Differs(received, meant) || Behind(received, meant))
  }

  lemma {:induction false} SpoiltIsNotEqual(received: Receiver, meant: Receiver, base: nat)
    requires Spoilt(received, meant, base)
    ensures received != meant
  {}

  lemma {:induction false} MessageIsClean(c: Command)
    requires Possible(c) && !Continues(c)
    ensures !Stray(MessageOf(c))
  {
    var running: byte :| WellFormed(c, running);
    if c.Channel? && c.abbreviated {
      assert DataOctets(c.args);
    }
  }

  lemma {:induction false} MeanStaysClean(meant: Receiver, base: nat, c: Command)
    requires Clean(meant, base) && Possible(c)
    ensures Clean(Mean(meant, c), base) && meant.events <= Mean(meant, c).events
  {
    if !Continues(c) {
      MessageIsClean(c);
    }
    hide MessageOf;
  }

  lemma {:induction false} ReceivedStays(r: Receiver, c: Command)
    ensures r.events <= Receive(r, c).0.events
  {
    hide MessageOf, Segment;
  }

  /** What is behind stays behind, or a stray segment is passed on. */
  lemma {:induction false} BehindStays(received: Receiver, meant: Receiver, base: nat, c: Command)
    requires Behind(received, meant) && base <= |received.events| && Receive(received, c).1.Pass?
    ensures Tainted(Receive(received, c).0, base) || Behind(Receive(received, c).0, Mean(meant, c))
  {
    hide Segment;
    if received.pending.None? && Continues(c) {
      var next := Receive(received, c).0;
      assert next.events[|received.events|] == MessageOf(c);
      assert Stray(MessageOf(c)) by {
        StrayIs(c);
      }
    }
    hide MessageOf;
  }

  lemma {:induction false} StrayIs(c: Command)
    requires Continues(c)
    ensures Stray(MessageOf(c))
  {}

  lemma {:induction false} SpoiltStays(received: Receiver, meant: Receiver, base: nat, c: Command)
    requires Spoilt(received, meant, base) && Possible(c) && Receive(received, c).1.Pass?
    ensures Spoilt(Receive(received, c).0, Mean(meant, c), base)
  {
    MeanStaysClean(meant, base, c);
    ReceivedStays(received, c);
    if Behind(received, meant) {
      BehindStays(received, meant, base, c);
    }
    hide Receive, Mean, Behind;
  }

  lemma {:induction false} SpoiltForGood(received: Receiver, meant: Receiver, base: nat, cs: seq<Command>)
    requires Spoilt(received, meant, base) && forall c | c in cs :: Possible(c)
    ensures ReceiveAll(received, cs) != (MeanAll(meant, cs), Pass)
    decreases |cs|
  {
    hide Spoilt, Receive, Mean, Possible;
    if cs == [] {
      SpoiltIsNotEqual(received, meant, base);
    } else if Receive(received, cs[0]).1.Pass? {
      SpoiltStays(received, meant, base, cs[0]);
      SpoiltForGood(Receive(received, cs[0]).0, Mean(meant, cs[0]), base, cs[1..]);
    }
  }

  /** A SysEx `d` with a dropped F7 was meant, and has been taken for a first segment; `y` has come since. */
  ghost predicate Waiting(received: Receiver, meant: Receiver, d: seq<byte>, y: seq<byte>) {
    && received.pending == Some(d + y) && meant.pending.None?
    && meant.events == received.events + [Segment(0xF0, d, 0xF7)]
  }

  lemma {:induction false} SegmentsDiffer(d: seq<byte>, e: seq<byte>)
    requires |d| != |e|
    ensures Segment(0xF0, d, 0xF7) != Segment(0xF0, e, 0xF7) && !Stray(Segment(0xF0, d, 0xF7))
  {}

  lemma {:induction false} WaitingEnds(received: Receiver, meant: Receiver, d: seq<byte>, y: seq<byte>, c: Command)
    requires Waiting(received, meant, d, y) && Receive(received, c).1.Pass?
    ensures var next := Receive(received, c).0;
            && (c.SysExMiddle? || c.SysExLast? || c.SysExCancel?) && Mean(meant, c) == meant
            && (c.SysExMiddle? ==> Waiting(next, meant, d, y + c.data))
            && (c.SysExLast? && d != [] && y + c.data == [] ==> next == meant)
            && (c.SysExLast? && !(d != [] && y + c.data == []) ==> Differs(next, meant) || Behind(next, meant))
            && (c.SysExCancel? ==> Behind(next, meant))
            && received.events <= next.events
  {
    assert d + y + c.data == d + (y + c.data);
    assert y + c.data == [] ==> d + (y + c.data) == d;
    if c.SysExLast? && d + y + c.data != [] && y + c.data != [] {
      SegmentsDiffer(d, d + y + c.data);
      var next := Receive(received, c).0;
      assert next.events[|received.events|] != meant.events[|received.events|];
    }
    hide Segment, MessageOf;
  }

  lemma {:induction false} WaitingIff(received: Receiver, meant: Receiver, d: seq<byte>, y: seq<byte>, cs: seq<Command>)
    requires Waiting(received, meant, d, y) && forall c | c in cs :: Possible(c)
    ensures ReceiveAll(received, cs) == (MeanAll(meant, cs), Pass)
            <==> && d != [] && y == [] && AfterEmptyEnd(cs).Some?
                 && var rest := AfterEmptyEnd(cs).value;
                 ReceiveAll(meant, rest) == (MeanAll(meant, rest), Pass)
    decreases |cs|
  {
    if cs != [] && Receive(received, cs[0]).1.Pass? {
      var c, next, base := cs[0], Receive(received, cs[0]).0, |received.events|;
      WaitingEnds(received, meant, d, y, c);
      assert Clean(meant, base);
      hide Receive, Mean, Possible, Waiting, Differs, Behind;
      if c.SysExMiddle? {
        WaitingIff(next, meant, d, y + c.data, cs[1..]);
      } else if next != meant {
        SpoiltForGood(next, meant, base, cs[1..]);
      }
    }
  }

  /** What an unhandled command spoils at once, where it does not throw. */
  lemma {:induction false} UnhandledSpoils(r: Receiver, c: Command)
    requires !Handled(r, c) && !c.SysExDropped? && Receive(r, c).1.Pass?
    ensures Spoilt(Receive(r, c).0, Mean(r, c), |r.events|)
  {
    var next := Receive(r, c).0;
    if r.pending.None? {
      StrayIs(c);
      assert next.events[|r.events|] == MessageOf(c);
    } else {
      assert Behind(next, Mean(r, c));
    }
    hide MessageOf;
  }

  /** Any commands that lists can have come out exactly as they are meant if and only if AsMeant says so. */
  lemma {:induction false} ReceivedAsMeantIff(r: Receiver, cs: seq<Command>)
    requires forall c | c in cs :: Possible(c)
    ensures ReceiveAll(r, cs) == (MeanAll(r, cs), Pass) <==> AsMeant(r, cs)
    decreases |cs|
  {
    if cs != [] {
      var c := cs[0];
      if Handled(r, c) {
        HandledIsMeant(r, c);
        ReceivedAsMeantIff(Mean(r, c), cs[1..]);
      } else if Receive(r, c).1.Pass? {
        UnhandledComesOutIff(r, cs);
      }
    }
  }

  lemma {:induction false} UnhandledComesOutIff(r: Receiver, cs: seq<Command>)
    requires cs != [] && forall c | c in cs :: Possible(c)
    requires !Handled(r, cs[0]) && Receive(r, cs[0]).1.Pass?
    ensures ReceiveAll(r, cs) == (MeanAll(r, cs), Pass) <==> AsMeant(r, cs)
    decreases |cs|, 0
  {
    var c := cs[0];
    var next, meant := Receive(r, c).0, Mean(r, c);
    if c.SysExDropped? {
      assert c.data + [] == c.data;
      assert Waiting(next, meant, c.data, []);
      WaitingIff(next, meant, c.data, [], cs[1..]);
      if AfterEmptyEnd(cs[1..]).Some? {
        AfterEmptyEndIsEnd(cs[1..]);
        ReceivedAsMeantIff(meant, AfterEmptyEnd(cs[1..]).value);
      }
    } else {
      UnhandledSpoils(r, c);
      SpoiltForGood(next, meant, |r.events|, cs[1..]);
    }
  }

  lemma {:induction false} AfterEmptyEndIsEnd(cs: seq<Command>)
    requires AfterEmptyEnd(cs).Some?
    ensures forall c | c in AfterEmptyEnd(cs).value :: c in cs
    decreases |cs|
  {
    if cs[0] == SysExMiddle([]) {
      AfterEmptyEndIsEnd(cs[1..]);
    }
  }

  /** No segment comes without the first one of its SysEx. */
  predicate InOrder(r: Receiver, cs: seq<Command>)
    decreases |cs|
  {
    cs == [] || ((r.pending.None? ==> !Continues(cs[0])) && InOrder(Mean(r, cs[0]), cs[1..]))
  }

  lemma {:induction false} NoEndWithoutSysex(r: Receiver, cs: seq<Command>)
    requires InOrder(r, cs) && r.pending.None?
    ensures AfterEmptyEnd(cs).None?
  {}

  /** And so segments that are in order come out as they are meant if and only if every command is handled. */
  lemma {:induction false} InOrderIff(r: Receiver, cs: seq<Command>)
    requires InOrder(r, cs)
    ensures AsMeant(r, cs) <==> AllHandled(r, cs)
    decreases |cs|
  {
    if cs != [] {
      if Handled(r, cs[0]) {
        InOrderIff(Mean(r, cs[0]), cs[1..]);
      } else if r.pending.None? && cs[0].SysExDropped? {
        NoEndWithoutSysex(Mean(r, cs[0]), cs[1..]);
      }
    }
  }

  /** Segments of which the first was lost: each of them is passed on, and none is meant. */
  lemma {:induction false} StraySegmentsAreRaised(r: Receiver, cs: seq<Command>)
    requires r.pending.None? && forall c | c in cs :: Continues(c)
    ensures ReceiveAll(r, cs) == (r.(events := r.events + Messages(cs)), Pass) && MeanAll(r, cs) == r
    decreases |cs|
  {
    hide MessageOf;
    if cs == [] {
      assert r.events + Messages(cs) == r.events;
    } else {
      assert Continues(cs[0]);
      var next := Receive(r, cs[0]).0;
      StraySegmentsAreRaised(next, cs[1..]);
      StraySegmentsAreRaised(r, cs[1..]);
      assert next.events + Messages(cs[1..]) == r.events + Messages(cs);
    }
  }

  lemma {:induction false} ReceiveAllAppend(r: Receiver, a: seq<Command>, b: seq<Command>)
    ensures var (r1, o) := ReceiveAll(r, a);
            ReceiveAll(r, a + b) == if o.Pass? then ReceiveAll(r1, b) else (r1, o)
    decreases |a|
  {
    hide Receive;
    if a == [] {
      assert a + b == b;
    } else {
      assert (a + b)[0] == a[0] && (a + b)[1..] == a[1..] + b;
      if Receive(r, a[0]).1.Pass? {
        ReceiveAllAppend(Receive(r, a[0]).0, a[1..], b);
      }
    }
  }

  /**
    * What happens at the first command that is not handled. The messages before it are
    * raised. Then the list is given up and what was pending stays pending, with the data of
    * an F5-ended segment added; or the list goes on, where a whole SysEx that ends with F5
    * is taken to be pending, a segment of nothing is passed on as a message, and a SysEx
    * that was put together of nothing is not.
    */
  lemma {:induction false} FirstUnhandled(r: Receiver, before: seq<Command>, c: Command, after: seq<Command>)
    requires AllHandled(r, before) && !Handled(MeanAll(r, before), c)
    ensures var m := MeanAll(r, before);
            ReceiveAll(r, before + [c] + after) ==
              if Unlisted(c) then (m, Fail(BadMidiPacket))
              else if m.pending.None? then
                ReceiveAll(if c.SysExDropped? then m.(pending := Some(c.data))
                           else m.(events := m.events + [Segment(0xF7, c.data, LastOctet(c))]), after)
              else if c.SysExLast? then ReceiveAll(m.(pending := None), after)
              else if c.SysExLastDropped? then (m.(pending := Some(m.pending.value + c.data)), Fail(BadSysEx))
              else (m, Fail(BadSysEx))
  {
    var m := MeanAll(r, before);
    AllHandledIsMeant(r, before);
    ReceiveAllAppend(r, before, [c] + after);
    assert before + [c] + after == before + ([c] + after);
    assert ([c] + after)[1..] == after;
    assert m.pending.None? && !Unlisted(c) && !c.SysExDropped? ==> Continues(c);
  }

  /** What the decoder's octets mean: the first two are the octet in front of F0, and F0. */
  function Abstract(d: Decoder): Receiver
    requires d.Valid()
  {
    Receiver(if d.sysex == [] then None else Some(d.sysex[2..]), d.events)
  }

  // ----- the decoder refines the receiver

  /** A stretch of the buffer, octet by octet and in parts. */
  lemma {:induction false} SliceAt(buf: seq<byte>, pos: nat, e: seq<byte>, i: nat)
    requires pos + |e| <= |buf| && buf[pos..pos + |e|] == e && i <= |e|
    ensures i < |e| ==> buf[pos + i] == e[i]
    ensures buf[pos..pos + i] == e[..i] && buf[pos + i..pos + |e|] == e[i..]
  {
    assert i < |e| ==> buf[pos..pos + |e|][i] == buf[pos + i];
  }

  lemma {:induction false} StatusFromIs(buf: seq<byte>, from: nat, to: nat)
    requires from <= to < |buf| && buf[to] >= 0x80
    requires forall i | from <= i < to :: buf[i] < 0x80
    ensures StatusFrom(buf, from) == Some(to)
  {
  }

  /** The octets around the data of a segment. */
  function FirstOctet(c: Command): byte
    requires IsSegment(c)
  {
    if c.Undefined? then c.octet
    else if c.SysEx? || c.SysExFirst? || c.SysExDropped? then 0xF0
    else 0xF7
  }

  function LastOctet(c: Command): byte
    requires IsSegment(c)
  {
    if c.SysExFirst? || c.SysExMiddle? then 0xF0
    else if c.SysExCancel? then 0xF4
    else if c.SysExDropped? || c.SysExLastDropped? then 0xF5
    else 0xF7
  }

  lemma {:induction false} SegmentLength(
    buf: seq<byte>, beyond: byte, pos: nat, running: byte, first: byte, data: seq<byte>, last: byte)
    requires running == 0 || 0x80 <= running < 0xF0
    requires first in {0xF0, 0xF4, 0xF7} && last >= 0x80 && DataOctets(data)
    requires pos + |data| + 2 <= |buf| && buf[pos..pos + |data| + 2] == Segment(first, data, last)
    ensures buf[pos] == first && NextLength(buf, beyond, pos, running) == Success(|data| + 2)
  {
    var e := Segment(first, data, last);
    SliceAt(buf, pos, e, 0);
    SliceAt(buf, pos, e, |e| - 1);
    forall i | pos + 1 <= i < pos + |e| - 1 ensures buf[i] < 0x80 {
      SliceAt(buf, pos, e, i - pos);
      assert e[i - pos] == data[i - pos - 1];
    }
    StatusFromIs(buf, pos + 1, pos + |e| - 1);
    hide StatusFrom, Segment;
  }

  lemma {:induction false} ShortLength(buf: seq<byte>, beyond: byte, pos: nat, running: byte, c: Command)
    requires running == 0 || 0x80 <= running < 0xF0
    requires WellFormed(c, running) && !IsSegment(c) && !Unlisted(c)
    requires pos < |buf| && |Encode(c)| >= 1 && buf[pos] == Encode(c)[0]
    ensures NextLength(buf, beyond, pos, running) == Success(|Encode(c)|)
    ensures RunningAfter(buf[pos], running) == RunningNext(c, running)
  {
    match c {
      case Channel(status, args, abbreviated) =>
        assert DataOctets(args) && args[0] < 0x80;
        assert ChannelLength(status) == |args| + 1;
      case Common(octets) =>
      case RealTime(octet) =>
    }
  }

  lemma {:induction false} UnlistedLength(buf: seq<byte>, beyond: byte, pos: nat, running: byte, c: Command)
    requires running == 0 || 0x80 <= running < 0xF0
    requires WellFormed(c, running) && Unlisted(c)
    requires pos < |buf| && |Encode(c)| >= 1 && buf[pos] == Encode(c)[0]
    ensures NextLength(buf, beyond, pos, running) == Success(0)
    ensures RunningAfter(buf[pos], running) == RunningNext(c, running)
  {}

  lemma {:induction false} CommandLength(buf: seq<byte>, beyond: byte, pos: nat, running: byte, c: Command)
    requires running == 0 || 0x80 <= running < 0xF0
    requires WellFormed(c, running)
    requires pos + |Encode(c)| <= |buf| && buf[pos..pos + |Encode(c)|] == Encode(c)
    ensures |Encode(c)| >= 1
    ensures NextLength(buf, beyond, pos, running) == Success(if Unlisted(c) then 0 else |Encode(c)|)
    ensures buf[pos] == Encode(c)[0] && (buf[pos] in {0xF0, 0xF7} ==> |Encode(c)| >= 2)
    ensures RunningAfter(buf[pos], running) == RunningNext(c, running)
  {
    if Unlisted(c) {
      SliceAt(buf, pos, Encode(c), 0);
      UnlistedLength(buf, beyond, pos, running, c);
    } else if IsSegment(c) {
      SegmentLength(buf, beyond, pos, running, FirstOctet(c), c.data, LastOctet(c));
    } else {
      SliceAt(buf, pos, Encode(c), 0);
      ShortLength(buf, beyond, pos, running, c);
    }
  }

  /** The data of a segment, by its place in the buffer. */
  lemma {:induction false} SegmentData(buf: seq<byte>, pos: nat, first: byte, data: seq<byte>, last: byte)
    requires pos + |data| + 2 <= |buf| && buf[pos..pos + |data| + 2] == Segment(first, data, last)
    ensures buf[pos] == first && buf[pos + |data| + 1] == last
    ensures buf[pos + 1..pos + |data| + 1] == data
  {
    var e := Segment(first, data, last);
    SliceAt(buf, pos, e, 0);
    SliceAt(buf, pos, e, |e| - 1);
    assert e[..|e| - 1][1..] == data;
    assert buf[pos..pos + |e| - 1][1..] == buf[pos + 1..pos + |e| - 1];
  }

  /** A segment while a SysEx is being put together. */
  lemma {:induction false} ContinuationRefines(buf: seq<byte>, pos: nat, data: seq<byte>, last: byte, d: Decoder)
    requires d.Valid() && d.sysex != [] && 1 <= pos
    requires last in {0xF0, 0xF4, 0xF5, 0xF7}
    requires pos + |data| + 2 <= |buf| && buf[pos..pos + |data| + 2] == Segment(0xF7, data, last)
    ensures buf[pos] == 0xF7
    ensures var (d2, o) := DecodeSysex(buf, pos, |data| + 2, d);
            var whole := d.sysex[2..] + data;
            && o == (if last == 0xF5 then Fail(BadSysEx) else Pass)
            && (last == 0xF0 || last == 0xF5 ==> Abstract(d2) == Receiver(Some(whole), d.events))
            && (last == 0xF4 ==> Abstract(d2) == Receiver(None, d.events))
            && (last == 0xF7 ==> Abstract(d2) == Complete(Abstract(d), whole))
  {
    SegmentData(buf, pos, 0xF7, data, last);
    var sysex := d.sysex + data;
    assert sysex[2..] == d.sysex[2..] + data;
    assert (sysex + [0xF7])[1..] == Segment(0xF0, d.sysex[2..] + data, 0xF7);
    hide Segment;
  }

  /** The first segment is stored behind the octet in front of it, whatever ends it but F7. */
  lemma {:induction false} FirstSegmentRefines(buf: seq<byte>, pos: nat, data: seq<byte>, last: byte, d: Decoder)
    requires d.Valid() && d.sysex == [] && 1 <= pos && last != 0xF7
    requires pos + |data| + 2 <= |buf| && buf[pos..pos + |data| + 2] == Segment(0xF0, data, last)
    ensures buf[pos] == 0xF0
    ensures var (d2, o) := DecodeSysex(buf, pos, |data| + 2, d);
            o == Pass && Abstract(d2) == Receiver(Some(data), d.events)
  {
    SegmentData(buf, pos, 0xF0, data, last);
    assert buf[pos - 1..pos + |data| + 1][2..] == buf[pos + 1..pos + |data| + 1];
    hide Segment;
  }

  /** Outside a SysEx octets that end no segment are passed on, behind the running status where they have none. */
  lemma {:induction false} OctetsArePassedOn(buf: seq<byte>, pos: nat, length: nat, d: Decoder)
    requires d.Valid() && d.sysex == [] && 1 <= pos
    requires pos + length <= |buf| && length >= 1
    requires buf[pos] in {0xF0, 0xF7} ==> length >= 2
    requires buf[pos] == 0xF0 ==> buf[pos + length - 1] == 0xF7
    ensures var status := if buf[pos] < 0x80 && d.running != 0 then [d.running] else [];
            DecodeCommand(buf, pos, length, d) == (d.(events := d.events + [status + buf[pos..pos + length]]), Pass)
  {
    assert [] + buf[pos..pos + length] == buf[pos..pos + length];
  }

  /** Where a command has to be completed by the running status, and where it is a SysEx. */
  lemma {:induction false} WholeCommandBegins(c: Command, running: byte)
    requires WellFormed(c, running)
    requires !c.SysExFirst? && !c.SysExDropped? && !Unlisted(c)
    ensures var e := Encode(c);
            && |e| >= 1 && (e[0] == 0xF0 ==> e[|e| - 1] == 0xF7)
            && var status := if e[0] < 0x80 && RunningNext(c, running) != 0 then [RunningNext(c, running)] else [];
            MessageOf(c) == status + e
  {
    var e := Encode(c);
    if c.Channel? {
      assert c.args[0] < 0x80;
    }
    assert [] + e == e;
  }

  /** Outside a SysEx every other command becomes a message. */
  lemma {:induction false} WholeCommandRefines(buf: seq<byte>, pos: nat, c: Command, d: Decoder, running: byte)
    requires d.Valid() && d.sysex == [] && 1 <= pos
    requires !c.SysExFirst? && !c.SysExDropped? && !Unlisted(c)
    requires WellFormed(c, running) && d.running == RunningNext(c, running) && |Encode(c)| >= 1
    requires pos + |Encode(c)| <= |buf| && buf[pos..pos + |Encode(c)|] == Encode(c)
    requires buf[pos] in {0xF0, 0xF7} ==> |Encode(c)| >= 2
    ensures DecodeCommand(buf, pos, |Encode(c)|, d) == (d.(events := d.events + [MessageOf(c)]), Pass)
  {
    hide Encode, WellFormed, DecodeCommand, MessageOf, RunningNext, Unlisted;
    var e := Encode(c);
    WholeCommandBegins(c, running);
    SliceAt(buf, pos, e, 0);
    SliceAt(buf, pos, e, |e| - 1);
    OctetsArePassedOn(buf, pos, |e|, d);
  }

  /** One command of the table: the receiver's step, to the same effect and with the same exception. */
  lemma {:induction false} CommandRefines(buf: seq<byte>, pos: nat, c: Command, d: Decoder, running: byte)
    requires d.Valid() && 1 <= pos && !Unlisted(c)
    requires WellFormed(c, running) && d.running == RunningNext(c, running) && |Encode(c)| >= 1
    requires pos + |Encode(c)| <= |buf| && buf[pos..pos + |Encode(c)|] == Encode(c)
    requires buf[pos] in {0xF0, 0xF7} ==> |Encode(c)| >= 2
    ensures var (d2, o) := DecodeCommand(buf, pos, |Encode(c)|, d);
            (Abstract(d2), o) == Receive(Abstract(d), c)
  {
    SliceAt(buf, pos, Encode(c), 0);
    if d.sysex == [] {
      if c.SysExFirst? || c.SysExDropped? {
        FirstSegmentRefines(buf, pos, c.data, LastOctet(c), d);
      } else {
        WholeCommandRefines(buf, pos, c, d, running);
      }
    } else if c.SysExMiddle? || c.SysExLast? || c.SysExCancel? || c.SysExLastDropped? {
      ContinuationRefines(buf, pos, c.data, LastOctet(c), d);
    } else {
      assert buf[pos] != 0xF7;
    }
  }

  /** One turn of the loop on a command of known length and effect, with the delta time behind it. */
  lemma {:induction false} TurnOf(
    buf: seq<byte>, beyond: byte, pos: nat, size: nat, delta: seq<byte>, rest: nat, d: Decoder, d2: Decoder)
    requires 1 <= pos && d.Valid() && size >= 1
    requires NextLength(buf, beyond, pos, d.running) == Success(size)
    requires pos + size + |delta| <= |buf| && buf[pos + size..pos + size + |delta|] == delta
    requires IsDelta(delta) || (delta == [] && rest == 0)
    requires buf[pos] in {0xF0, 0xF7} ==> size >= 2
    requires DecodeCommand(buf, pos, size, d.(running := RunningAfter(buf[pos], d.running))) == (d2, Pass)
    ensures DecodeList(buf, beyond, pos, size + |delta| + rest, d)
         == DecodeList(buf, beyond, pos + size + |delta|, rest, d2)
  {
    hide NextLength, DecodeCommand, DecodeList, ReadDelta;
    ListTurn(buf, beyond, pos, size + |delta| + rest, d);
    if delta != [] {
      ReadDeltaAdvances(buf, pos + size, delta);
    } else {
      ListEnds(buf, beyond, pos + size, d2);
    }
  }

  lemma {:induction false} TurnThrows(
    buf: seq<byte>, beyond: byte, pos: nat, size: nat, rest: nat, d: Decoder, d2: Decoder)
    requires 1 <= pos && d.Valid() && size >= 1
    requires NextLength(buf, beyond, pos, d.running) == Success(size)
    requires pos + size <= |buf|
    requires buf[pos] in {0xF0, 0xF7} ==> size >= 2
    requires DecodeCommand(buf, pos, size, d.(running := RunningAfter(buf[pos], d.running))) == (d2, Fail(BadSysEx))
    ensures DecodeList(buf, beyond, pos, size + rest, d) == Decoded(d2, pos, Fail(BadSysEx))
  {
    hide NextLength, DecodeCommand, DecodeList;
    ListTurn(buf, beyond, pos, size + rest, d);
  }

  lemma {:induction false} UnlistedThrows(buf: seq<byte>, beyond: byte, pos: nat, size: nat, d: Decoder)
    requires 1 <= pos && d.Valid() && size >= 1
    requires NextLength(buf, beyond, pos, d.running) == Success(0)
    ensures DecodeList(buf, beyond, pos, size, d)
         == Decoded(d.(running := RunningAfter(buf[pos], d.running)), pos, Fail(BadMidiPacket))
  {
    hide NextLength, DecodeList;
    ListTurn(buf, beyond, pos, size, d);
  }

  lemma {:induction false} ListEnds(buf: seq<byte>, beyond: byte, pos: nat, d: Decoder)
    requires 1 <= pos && d.Valid()
    ensures DecodeList(buf, beyond, pos, 0, d) == Decoded(d, pos, Pass)
  {
  }

  /** One turn of the loop on a well-formed command: the receiver's step. */
  lemma {:induction false} TurnRefines(
    buf: seq<byte>, beyond: byte, pos: nat, c: Command, delta: seq<byte>, rest: nat, d: Decoder)
    returns (d2: Decoder)
    requires 1 <= pos && d.Valid() && WellFormed(c, d.running)
    requires IsDelta(delta) || (delta == [] && rest == 0)
    requires var e := Encode(c) + delta; pos + |e| <= |buf| && buf[pos..pos + |e|] == e
    ensures d2.Valid() && d2.running == RunningNext(c, d.running)
    ensures Abstract(d2) == Receive(Abstract(d), c).0
    ensures var size, o := |Encode(c)| + |delta|, Receive(Abstract(d), c).1;
            DecodeList(buf, beyond, pos, size + rest, d)
              == if o.Pass? then DecodeList(buf, beyond, pos + size, rest, d2) else Decoded(d2, pos, o)
  {
    hide DecodeList, NextLength, DecodeCommand, Encode, WellFormed, IsDelta, Receive;
    var size := |Encode(c)|;
    SliceAt(buf, pos, Encode(c) + delta, size);
    assert (Encode(c) + delta)[..size] == Encode(c) && (Encode(c) + delta)[size..] == delta;
    CommandLength(buf, beyond, pos, d.running, c);
    var d1 := d.(running := RunningNext(c, d.running));
    assert Abstract(d1) == Abstract(d);
    if Unlisted(c) {
      UnlistedIsRefused(Abstract(d), c);
      d2 := d1;
      UnlistedThrows(buf, beyond, pos, size + |delta| + rest, d);
    } else {
      CommandRefines(buf, pos, c, d1, d.running);
      var (d', o) := DecodeCommand(buf, pos, size, d1);
      d2 := d';
      ReceiveThrows(Abstract(d), c);
      if o.Pass? {
        TurnOf(buf, beyond, pos, size, delta, rest, d, d2);
      } else {
        TurnThrows(buf, beyond, pos, size, |delta| + rest, d, d2);
      }
    }
  }

  lemma {:induction false} UnlistedIsRefused(r: Receiver, c: Command)
    requires Unlisted(c)
    ensures Receive(r, c) == (r, Fail(BadMidiPacket))
  {}

  lemma {:induction false} ReceiveThrows(r: Receiver, c: Command)
    requires !Unlisted(c)
    ensures Receive(r, c).1 == Pass || Receive(r, c).1 == Fail(BadSysEx)
  {}

  lemma {:induction false} EntriesSplit(buf: seq<byte>, pos: nat, entries: seq<Entry>)
    requires entries != []
    requires pos + |EncodeEntries(entries)| <= |buf|
    requires buf[pos..pos + |EncodeEntries(entries)|] == EncodeEntries(entries)
    ensures var e := Encode(entries[0].command) + entries[0].delta;
            var rest := EncodeEntries(entries[1..]);
            && |EncodeEntries(entries)| == |e| + |rest|
            && buf[pos..pos + |e|] == e
            && buf[pos + |e|..pos + |e| + |rest|] == rest
  {
    var e, all := Encode(entries[0].command) + entries[0].delta, EncodeEntries(entries);
    assert all == e + EncodeEntries(entries[1..]);
    SliceAt(buf, pos, all, |e|);
  }

  lemma {:induction false} CommandsSplit(r: Receiver, entries: seq<Entry>)
    requires entries != []
    ensures var (next, o) := Receive(r, entries[0].command);
            ReceiveAll(r, Commands(entries)) == if o.Fail? then (next, o) else ReceiveAll(next, Commands(entries[1..]))
  {
    assert Commands(entries)[1..] == Commands(entries[1..]);
  }

  /** What it means that decoding the octets of `entries` at `pos` amounts to receiving their commands. */
  ghost predicate Agrees(r: Decoded, received: (Receiver, Outcome), end: nat) {
    && r.decoder.Valid()
    && (Abstract(r.decoder), r.outcome) == received
    && (r.outcome.Pass? ==> r.position == end)
  }

  /**
    * The whole list: every command is received in turn, with its delta time skipped,
    * and the decoder stops exactly at the end of the list; or it throws where the
    * receiver does.
    */
  lemma {:induction false} ListRefines(buf: seq<byte>, beyond: byte, pos: nat, entries: seq<Entry>, d: Decoder)
    requires 1 <= pos && d.Valid()
    requires WellFormedEntries(entries, d.running)
    requires pos + |EncodeEntries(entries)| <= |buf|
    requires buf[pos..pos + |EncodeEntries(entries)|] == EncodeEntries(entries)
    ensures Agrees(DecodeList(buf, beyond, pos, |EncodeEntries(entries)|, d),
                   ReceiveAll(Abstract(d), Commands(entries)),
                   pos + |EncodeEntries(entries)|)
    decreases |entries|
  {
    hide DecodeList, Encode, Receive;
    if entries == [] {
      ListEnds(buf, beyond, pos, d);
    } else {
      var c, delta, rest := entries[0].command, entries[0].delta, EncodeEntries(entries[1..]);
      var size := |Encode(c)| + |delta|;
      EntriesSplit(buf, pos, entries);
      assert |entries| == 1 ==> rest == [];
      var d2 := TurnRefines(buf, beyond, pos, c, delta, |rest|, d);
      CommandsSplit(Abstract(d), entries);
      assert |EncodeEntries(entries)| == size + |rest|;
      if Receive(Abstract(d), c).1.Pass? {
        ListRefines(buf, beyond, pos + size, entries[1..], d2);
      }
    }
  }

  lemma {:induction false} EntriesArePossible(entries: seq<Entry>, running: byte)
    requires WellFormedEntries(entries, running)
    ensures forall c | c in Commands(entries) :: Possible(c)
    decreases |entries|
  {
    hide WellFormed;
    if entries != [] {
      assert Possible(entries[0].command);
      EntriesArePossible(entries[1..], RunningNext(entries[0].command, running));
    }
  }

  /**
    * And so the decoder makes of a list what it means, and stops at its end, if and only if
    * AsMeant says so of its commands.
    */
  lemma {:induction false} ListDecodedAsMeantIff(
    buf: seq<byte>, beyond: byte, pos: nat, entries: seq<Entry>, d: Decoder)
    requires 1 <= pos && d.Valid()
    requires WellFormedEntries(entries, d.running)
    requires pos + |EncodeEntries(entries)| <= |buf|
    requires buf[pos..pos + |EncodeEntries(entries)|] == EncodeEntries(entries)
    ensures var r := DecodeList(buf, beyond, pos, |EncodeEntries(entries)|, d);
            && r.decoder.Valid()
            && (Abstract(r.decoder) == MeanAll(Abstract(d), Commands(entries)) && r.outcome == Pass
                && r.position == pos + |EncodeEntries(entries)|
                <==> AsMeant(Abstract(d), Commands(entries)))
  {
    hide DecodeList, ReceiveAll, MeanAll, AsMeant, WellFormedEntries, Possible;
    ListRefines(buf, beyond, pos, entries, d);
    EntriesArePossible(entries, d.running);
    ReceivedAsMeantIff(Abstract(d), Commands(entries));
  }

  function Messages(cs: seq<Command>): (ms: seq<Message>)
    ensures |ms| == |cs|
  {
    if cs == [] then [] else [MessageOf(cs[0])] + Messages(cs[1..])
  }

  /** A command that is no segment of a cut SysEx: it is a message by itself. */
  predicate IsWhole(c: Command) {
    !c.SysExFirst? && !Continues(c)
  }

  /** What the decoder knows of such commands. */
  predicate Known(c: Command) {
    !Unlisted(c) && !c.SysExDropped?
  }

  lemma {:induction false} WholeIsMeant(r: Receiver, cs: seq<Command>)
    requires r.pending.None?
    requires forall c | c in cs :: IsWhole(c)
    ensures MeanAll(r, cs) == r.(events := r.events + Messages(cs))
    decreases |cs|
  {
    hide MessageOf;
    if cs == [] {
      assert r.events + Messages(cs) == r.events;
    } else {
      var next := Mean(r, cs[0]);
      assert IsWhole(cs[0]);
      assert next == r.(events := r.events + [MessageOf(cs[0])]);
      WholeIsMeant(next, cs[1..]);
      assert next.events + Messages(cs[1..]) == r.events + Messages(cs);
    }
  }

  lemma {:induction false} WholeIsHandledIff(r: Receiver, cs: seq<Command>)
    requires r.pending.None?
    requires forall c | c in cs :: IsWhole(c)
    ensures AllHandled(r, cs) <==> forall c | c in cs :: Known(c)
    decreases |cs|
  {
    hide Unlisted, MessageOf;
    if cs != [] {
      assert cs == [cs[0]] + cs[1..] && IsWhole(cs[0]);
      WholeIsHandledIff(Mean(r, cs[0]), cs[1..]);
    }
  }

  /** Every command adds one message at most. */
  lemma {:induction false} AtMostOneEach(r: Receiver, cs: seq<Command>)
    ensures |ReceiveAll(r, cs).0.events| <= |r.events| + |cs|
    decreases |cs|
  {
    hide Encode, Segment;
    if cs != [] {
      AtMostOneEach(Receive(r, cs[0]).0, cs[1..]);
    }
  }

  lemma {:induction false} UnknownLosesOne(r: Receiver, cs: seq<Command>, c: Command)
    requires r.pending.None? && c in cs && !Known(c)
    requires forall c | c in cs :: IsWhole(c)
    ensures |ReceiveAll(r, cs).0.events| < |r.events| + |cs|
    decreases |cs|
  {
    hide Encode, Segment, MessageOf;
    var next := Receive(r, cs[0]).0;
    AtMostOneEach(next, cs[1..]);
    assert IsWhole(cs[0]);
    if Known(cs[0]) {
      assert c in cs[1..];
      UnknownLosesOne(next, cs[1..], c);
    }
  }

  /**
    * Commands that are complete in themselves are received, each as one message, in order
    * and with its status restored, if and only if the decoder knows them all; the first one
    * that it does not know costs a message at least.
    */
  lemma {:induction false} CompleteCommands(r: Receiver, cs: seq<Command>)
    requires r.pending.None?
    requires forall c | c in cs :: IsWhole(c)
    ensures ReceiveAll(r, cs).0.events == r.events + Messages(cs) <==> forall c | c in cs :: Known(c)
    ensures (forall c | c in cs :: Known(c)) ==> ReceiveAll(r, cs) == (r.(events := r.events + Messages(cs)), Pass)
  {
    hide ReceiveAll, Messages, AllHandled, MeanAll, IsWhole, Known;
    WholeIsMeant(r, cs);
    WholeIsHandledIff(r, cs);
    if AllHandled(r, cs) {
      AllHandledIsMeant(r, cs);
    } else {
      var c :| c in cs && !Known(c);
      UnknownLosesOne(r, cs, c);
    }
  }

  // ----- octets outside the grammar

  /** Without a closing F7, an F4 takes everything up to the next status octet with it, delta times too. */
  lemma {:induction false} UnendedCommonSwallows(buf: seq<byte>, beyond: byte, pos: nat, d: Decoder, last: nat)
    requires 1 <= pos < last < |buf| && d.Valid() && d.sysex == [] && buf[pos] == 0xF4
    requires buf[last] >= 0x80 && forall i | pos < i < last :: buf[i] < 0x80
    ensures DecodeOne(buf, beyond, pos, d)
         == Decoded(Decoder(0, [], d.events + [buf[pos..last + 1]]), last + 1, Pass)
  {
    StatusFromIs(buf, pos + 1, last);
    hide StatusFrom;
  }
}
