/**
  * midi_normalizer_t (src/midi_normalizer.cpp): cuts a stream of octets, as it comes from a
  * raw MIDI port, into whole messages.
  */
module MidiNormalizers {
  import opened IoBytes
  import opened MidiList

  /** What has been collected, and for how much more it waits: -1 a command, 0 the end of a SysEx, or a size. */
  datatype Normalizer = Normalizer(buffer: seq<byte>, waiting: int)

  const EMPTY := Normalizer([], -1)

  /** get_size_for_midi_command: 0 for a SysEx, -1 for what is not known. */
  function SizeOf(b: byte): int {
    var high := b as int / 0x10;
    if high == 0xF then (if b == 0xF0 then 0 else -1)
    else if high == 0xC || high == 0xD then 2
    else if 8 <= high then 3
    else -1
  }

  datatype Output = Output(state: Normalizer, packets: seq<seq<byte>>)

  /** parse_midi_byte */
  function Feed(n: Normalizer, b: byte): Output {
    var buffer := n.buffer + [b];
    if n.waiting == -1 then Output(Normalizer(buffer, SizeOf(b)), [])
    else if (if n.waiting == 0 then b == 0xF7 else |buffer| == n.waiting) then Output(EMPTY, [buffer])
    else Output(Normalizer(buffer, n.waiting), [])
  }

  /** normalize_stream */
  function FeedAll(n: Normalizer, s: seq<byte>): Output {
    if s == [] then Output(n, [])
    else
      var first := FeedAll(n, s[..|s| - 1]);
      var last := Feed(first.state, s[|s| - 1]);
      Output(last.state, first.packets + last.packets)
  }

  function Concat(packets: seq<seq<byte>>): seq<byte> {
    if packets == [] then [] else Concat(packets[..|packets| - 1]) + packets[|packets| - 1]
  }

  lemma {:induction false} ConcatAppend(packets: seq<seq<byte>>, p: seq<byte>)
    ensures Concat(packets + [p]) == Concat(packets) + p
  {
    assert (packets + [p])[..|packets|] == packets;
  }

  lemma {:induction false} Regroup(c: seq<byte>, collected: seq<byte>, before: seq<byte>, s: seq<byte>)
    requires s != [] && c + collected == before + s[..|s| - 1]
    ensures c + (collected + [s[|s| - 1]]) == before + s
  {
    assert s == s[..|s| - 1] + [s[|s| - 1]];
    assert c + (collected + [s[|s| - 1]]) == (c + collected) + [s[|s| - 1]];
  }

  // ----- for every stream

  /** Nothing is lost, added or reordered. */
  lemma {:induction false} NothingIsLost(n: Normalizer, s: seq<byte>)
    ensures var o := FeedAll(n, s); Concat(o.packets) + o.state.buffer == n.buffer + s
  {
    if s == [] {
      assert n.buffer + [] == [] + n.buffer;
    } else {
      var k := |s| - 1;
      NothingIsLost(n, s[..k]);
      var first := FeedAll(n, s[..k]);
      var last := Feed(first.state, s[k]);
      var c, whole := Concat(first.packets), first.state.buffer + [s[k]];
      Regroup(c, first.state.buffer, n.buffer, s);
      hide Concat;
      if last.packets == [] {
        assert first.packets + [] == first.packets;
      } else {
        ConcatAppend(first.packets, whole);
      }
    }
  }

  /** How the stream is cut into packets on the way in makes no difference. */
  lemma {:induction false} CuttingDoesNotMatter(n: Normalizer, s: seq<byte>, t: seq<byte>)
    ensures var o := FeedAll(n, s);
            var p := FeedAll(o.state, t);
            FeedAll(n, s + t) == Output(p.state, o.packets + p.packets)
  {
    if t == [] {
      assert s + t == s && FeedAll(n, s).packets + [] == FeedAll(n, s).packets;
    } else {
      var k := |t| - 1;
      CuttingDoesNotMatter(n, s, t[..k]);
      assert (s + t)[..|s + t| - 1] == s + t[..k];
    }
  }

  // ----- for streams of messages

  /** A channel message with its status, or a whole SysEx. */
  ghost predicate Message(m: seq<byte>) {
    && m != []
    && (SizeOf(m[0]) > 0 ==> |m| == SizeOf(m[0]))
    && (SizeOf(m[0]) == 0 ==> |m| > 1 && m[|m| - 1] == 0xF7 && forall i | 0 < i < |m| - 1 :: m[i] != 0xF7)
    && SizeOf(m[0]) != -1
  }

  /** Until its last octet a message is only collected. */
  lemma {:induction false} Collecting(m: seq<byte>, k: nat)
    requires Message(m) && 0 < k < |m|
    ensures FeedAll(EMPTY, m[..k]) == Output(Normalizer(m[..k], SizeOf(m[0])), [])
  {
    assert m[..k][..k - 1] == m[..k - 1] && m[..k - 1] + [m[k - 1]] == m[..k];
    if k == 1 {
      assert m[..0] == [] && FeedAll(EMPTY, []) == Output(EMPTY, []);
      assert FeedAll(EMPTY, m[..1]) == Output(Feed(EMPTY, m[0]).state, [] + []);
    } else {
      Collecting(m, k - 1);
    }
  }

  lemma {:induction false} MessageIsFramed(m: seq<byte>)
    requires Message(m)
    ensures FeedAll(EMPTY, m) == Output(EMPTY, [m])
  {
    var k := |m| - 1;
    Collecting(m, k);
    assert m[..k] + [m[k]] == m && [] + [m] == [m];
  }

  /** A stream of messages comes out as exactly these messages, and nothing stays behind. */
  lemma {:induction false} MessagesAreFramed(messages: seq<seq<byte>>)
    requires forall m | m in messages :: Message(m)
    ensures FeedAll(EMPTY, Concat(messages)) == Output(EMPTY, messages)
  {
    hide Message, Feed;
    if messages != [] {
      var k := |messages| - 1;
      MessagesAreFramed(messages[..k]);
      MessageIsFramed(messages[k]);
      CuttingDoesNotMatter(EMPTY, Concat(messages[..k]), messages[k]);
      assert messages == messages[..k] + [messages[k]];
    }
  }

  // ----- for streams of commands

  /** The table of sizes is that of the lengths of channel messages; of all others only F0 is known. */
  lemma {:induction false} SizeIsLength(b: byte)
    ensures SizeOf(b) == if b == 0xF0 then 0 else if ChannelLength(b) > 0 then ChannelLength(b) else -1
  {}

  /** Of all commands of a MIDI list, channel messages and whole SysEx are messages, and no others. */
  lemma {:induction false} CommandIsMessageIff(c: Command, running: byte)
    requires WellFormed(c, running)
    ensures Message(MessageOf(c)) <==> c.Channel? || c.SysEx? || c.SysExDropped?
  {
    var m := MessageOf(c);
    if c.SysEx? || c.SysExDropped? {
      forall i | 0 < i < |m| - 1
        ensures m[i] != 0xF7
      {
        assert m[i] == c.data[i - 1];
      }
    }
  }

  /** A stream of channel messages and SysEx comes out as exactly these messages. */
  lemma {:induction false} CommandsAreFramed(cs: seq<Command>)
    requires forall c | c in cs :: Possible(c) && (c.Channel? || c.SysEx?)
    ensures FeedAll(EMPTY, Concat(Messages(cs))) == Output(EMPTY, Messages(cs))
  {
    forall m | m in Messages(cs)
      ensures Message(m)
    {
      var c := MessageIsOf(cs, m);
      var running: byte :| WellFormed(c, running);
      CommandIsMessageIff(c, running);
    }
    MessagesAreFramed(Messages(cs));
  }

  lemma {:induction false} MessageIsOf(cs: seq<Command>, m: seq<byte>) returns (c: Command)
    requires m in Messages(cs)
    ensures c in cs && m == MessageOf(c)
    decreases |cs|
  {
    hide MessageOf;
    if m == MessageOf(cs[0]) {
      c := cs[0];
    } else {
      assert Messages(cs) == [MessageOf(cs[0])] + Messages(cs[1..]);
      c := MessageIsOf(cs[1..], m);
    }
  }

  // ----- what an octet that is not known does

  /** At the place of a command it is kept in the buffer, and the next octet is taken for a command. */
  lemma {:induction false} UnknownIsKept(s: seq<byte>)
    requires forall b | b in s :: SizeOf(b) == -1
    ensures FeedAll(EMPTY, s) == Output(Normalizer(s, -1), [])
  {
    if s != [] {
      var k := |s| - 1;
      UnknownIsKept(s[..k]);
      assert s == s[..k] + [s[k]];
    }
  }

  /** At the place of a command the next message comes out as it is if and only if nothing is kept. */
  lemma {:induction false} FramedIffNothingKept(kept: seq<byte>, m: seq<byte>)
    requires Message(m)
    ensures FeedAll(Normalizer(kept, -1), m) == Output(EMPTY, [m]) <==> kept == []
  {
    if kept == [] {
      MessageIsFramed(m);
    } else {
      NothingIsLost(Normalizer(kept, -1), m);
      assert [m][..0] == [] && Concat([m]) == m;
      assert |kept + m| > |m + []|;
    }
  }

  /** Once the buffer holds the size that is waited for, it is passed by and nothing comes out any more. */
  lemma {:induction false} StuckForEver(n: Normalizer, s: seq<byte>)
    requires n.waiting > 0 && |n.buffer| >= n.waiting
    ensures FeedAll(n, s) == Output(Normalizer(n.buffer + s, n.waiting), [])
  {
    if s == [] {
      assert n.buffer + s == n.buffer;
    } else {
      var k := |s| - 1;
      StuckForEver(n, s[..k]);
      assert n.buffer + s == n.buffer + s[..k] + [s[k]];
    }
  }

  /** The octets that are still missing are collected. */
  lemma {:induction false} FillsUp(n: Normalizer, s: seq<byte>)
    requires n.waiting > 0 && |n.buffer| + |s| < n.waiting
    ensures FeedAll(n, s) == Output(Normalizer(n.buffer + s, n.waiting), [])
  {
    if s == [] {
      assert n.buffer + s == n.buffer;
    } else {
      var k := |s| - 1;
      FillsUp(n, s[..k]);
      assert n.buffer + s == n.buffer + s[..k] + [s[k]];
    }
  }

  /** A status after unknown octets: these count as part of its message. */
  lemma {:induction false} StatusAfterUnknown(kept: seq<byte>, status: byte, s: seq<byte>)
    requires forall b | b in kept :: SizeOf(b) == -1
    ensures FeedAll(EMPTY, kept + [status] + s) == FeedAll(Normalizer(kept + [status], SizeOf(status)), s)
  {
    UnknownIsKept(kept);
    CuttingDoesNotMatter(EMPTY, kept, [status]);
    var n := Normalizer(kept, -1);
    assert [status][..0] == [] && FeedAll(n, []) == Output(n, []);
    assert FeedAll(n, [status]) == Output(Normalizer(kept + [status], SizeOf(status)), [] + []);
    CuttingDoesNotMatter(EMPTY, kept + [status], s);
    var o := FeedAll(Normalizer(kept + [status], SizeOf(status)), s);
    assert [] + o.packets == o.packets;
  }

  /** What completes the message of the status, where anything does. */
  lemma {:induction false} SomethingCompletes(n: Normalizer) returns (s: seq<byte>)
    requires n.waiting == 0 || |n.buffer| < n.waiting
    ensures FeedAll(n, s).packets == [n.buffer + s]
  {
    if n.waiting == 0 {
      s := [0xF7];
      assert s[..0] == [] && FeedAll(n, []) == Output(n, []);
    } else {
      var k := n.waiting - |n.buffer| - 1;
      var zeros: seq<byte> := seq(k, _ => 0);
      s := zeros + [0];
      FillsUp(n, zeros);
      assert s[..k] == zeros && n.buffer + zeros + [0] == n.buffer + s;
    }
    assert [] + [n.buffer + s] == [n.buffer + s];
  }

  /**
    * Unknown octets before a status block the port, so that nothing comes out any more whatever
    * comes in, if and only if they and the status reach the size of its message. A SysEx is
    * never blocked.
    */
  lemma {:induction false} UnknownOctetsBlock(kept: seq<byte>, status: byte)
    requires (forall b | b in kept :: SizeOf(b) == -1) && SizeOf(status) != -1
    ensures (forall s :: FeedAll(EMPTY, kept + [status] + s).packets == [])
            <==> SizeOf(status) != 0 && |kept| + 1 >= SizeOf(status)
  {
    var n := Normalizer(kept + [status], SizeOf(status));
    if SizeOf(status) != 0 && |kept| + 1 >= SizeOf(status) {
      forall s
        ensures FeedAll(EMPTY, kept + [status] + s).packets == []
      {
        StatusAfterUnknown(kept, status, s);
        StuckForEver(n, s);
      }
    } else {
      var s := SomethingCompletes(n);
      StatusAfterUnknown(kept, status, s);
      assert FeedAll(EMPTY, kept + [status] + s).packets != [];
    }
  }

  // ----- the class

  class MidiNormalizer {
    var buffer: seq<byte>
    var waitingForSize: int

    ghost function State(): Normalizer
      reads this
    {
      Normalizer(buffer, waitingForSize)
    }

    constructor ()
      ensures State() == EMPTY
    {
      buffer, waitingForSize := [], -1;
    }

    /** What the callback is called with is returned. */
    method NormalizeStream(packet: seq<byte>) returns (packets: seq<seq<byte>>)
      modifies this
      ensures FeedAll(old(State()), packet) == Output(State(), packets)
    {
      packets := [];
      var offset := 0;
      while offset < |packet|
        invariant offset <= |packet|
        invariant FeedAll(old(State()), packet[..offset]) == Output(State(), packets)
      {
        assert packet[..offset + 1][..offset] == packet[..offset];
        var more := ParseMidiByte(packet[offset]);
        packets := packets + more;
        offset := offset + 1;
      }
      assert packet[..offset] == packet;
    }

    method ParseMidiByte(b: byte) returns (packets: seq<seq<byte>>)
      modifies this
      ensures Feed(old(State()), b) == Output(State(), packets)
    {
      packets := [];
      buffer := buffer + [b];
      if waitingForSize == -1 {
        waitingForSize := SizeOf(b);
      } else if waitingForSize == 0 {
        if b == 0xF7 {
          packets := [buffer];
          buffer, waitingForSize := [], -1;
        }
      } else if |buffer| == waitingForSize {
        packets := [buffer];
        buffer, waitingForSize := [], -1;
      }
    }
  }
}
