/**
  * The cutter of src/aseq.cpp: `ev_to_mididata_f` turns a SysEx that the ALSA decoder has
  * laid out as F0 .. F7 into fragments of at most 256 data octets. What the ALSA library
  * itself does is not part of this model.
  */
module SysexCutter {
  import opened Wrappers
  import opened IoBytes
  import opened MidiList

  const FRAGMENT := 256

  /** The fragments of the data `d`; the first starts with F0 and the others with F7. */
  function Cut(d: seq<byte>, start: bool): (fragments: seq<Message>)
    ensures fragments != []
    decreases |d|
  {
    var first := if start then 0xF0 else 0xF7;
    if |d| <= FRAGMENT then [Segment(first, d, 0xF7)]
    else [Segment(first, d[..FRAGMENT], 0xF0)] + Cut(d[FRAGMENT..], false)
  }

  /** The same fragments as commands of a MIDI list. */
  function CutCommands(d: seq<byte>, start: bool): (cs: seq<Command>)
    ensures |cs| == |Cut(d, start)|
    decreases |d|
  {
    if |d| <= FRAGMENT then [if start then SysEx(d) else SysExLast(d)]
    else
      var head := d[..FRAGMENT];
      [if start then SysExFirst(head) else SysExMiddle(head)] + CutCommands(d[FRAGMENT..], false)
  }

  /** Every fragment is a well-formed command, short enough for any packet. */
  lemma {:induction false} CutEncodesCommands(d: seq<byte>, start: bool)
    requires DataOctets(d)
    ensures forall i | 0 <= i < |Cut(d, start)| ::
              && Cut(d, start)[i] == Encode(CutCommands(d, start)[i])
              && |Cut(d, start)[i]| <= FRAGMENT + 2
              && WellFormed(CutCommands(d, start)[i], 0)
    decreases |d|
  {
    if |d| > FRAGMENT {
      CutEncodesCommands(d[FRAGMENT..], false);
    }
  }

  /** Receiving the fragments puts the SysEx together again. */
  lemma {:induction false} CutIsReceived(data: seq<byte>, d: seq<byte>, start: bool)
    requires start ==> data == []
    requires !start ==> d != []
    ensures ReceiveAll(Receiver(if start then None else Some(data), []), CutCommands(d, start))
         == (Receiver(None, [Segment(0xF0, data + d, 0xF7)]), Pass)
    decreases |d|
  {
    var r := Receiver(if start then None else Some(data), []);
    var cs := CutCommands(d, start);
    if |d| <= FRAGMENT {
      assert cs[1..] == [];
      assert data + d != [] || start;
      assert start ==> data + d == d;
      assert [] + [Segment(0xF0, data + d, 0xF7)] == [Segment(0xF0, data + d, 0xF7)];
    } else {
      var head, rest := d[..FRAGMENT], d[FRAGMENT..];
      assert cs[1..] == CutCommands(rest, false);
      assert start ==> data + head == head;
      assert Receive(r, cs[0]) == (Receiver(Some(data + head), []), Pass);
      assert d == head + rest && data + head + rest == data + d;
      CutIsReceived(data + head, rest, false);
    }
  }

  /** mididata_to_alsaevents_t, as far as it cuts; `emitted` is what its callback has been given. */
  class SysexToFragments {
    const decodeBuffer: Reader
    var emitted: seq<Message>

    ghost predicate Valid()
      reads this, decodeBuffer, decodeBuffer.mem
    {
      decodeBuffer.Valid() && decodeBuffer.position == 0
    }

    constructor (decodeBuffer: Reader)
      requires decodeBuffer.Valid() && decodeBuffer.position == 0
      ensures Valid() && emitted == [] && this.decodeBuffer == decodeBuffer
    {
      this.decodeBuffer, emitted := decodeBuffer, [];
    }

    /** One turn of the loop: a fragment with the next `count` octets of data. */
    method EmitFragment(first: byte, count: nat, last: byte)
      requires decodeBuffer.Valid() && count <= FRAGMENT
      requires decodeBuffer.position + count <= decodeBuffer.size
      modifies this`emitted
      ensures emitted == old(emitted)
                      + [Segment(first,
                                 decodeBuffer.View()[decodeBuffer.position..decodeBuffer.position + count],
                                 last)]
    {
      ghost var data := decodeBuffer.View()[decodeBuffer.position..decodeBuffer.position + count];
      var outBuffer := new Writer(258);
      var _ := outBuffer.WriteUint8(first);
      assert decodeBuffer.View() == old(decodeBuffer.View());
      var _ := outBuffer.CopyFrom(decodeBuffer, count);
      assert outBuffer.Written() == [first] + data;
      var _ := outBuffer.WriteUint8(last);
      emitted := emitted + [outBuffer.Written()];
    }

    /** The decoder has put `totalBytes` octets F0 .. F7 at the start of the buffer. */
    method EvToMididata(totalBytes: nat)
      requires Valid() && 2 <= totalBytes <= decodeBuffer.size
      modifies this`emitted, decodeBuffer`position
      ensures Valid()
      ensures emitted == old(emitted) + Cut(decodeBuffer.View()[1..totalBytes - 1], true)
    {
      ghost var d := decodeBuffer.View()[1..totalBytes - 1];
      var start := true;
      while true
        invariant decodeBuffer.Valid()
        invariant if start then decodeBuffer.position == 0 else 1 <= decodeBuffer.position <= totalBytes - 1
        invariant var at := if start then 1 else decodeBuffer.position;
                  old(emitted) + Cut(d, true) == emitted + Cut(decodeBuffer.View()[at..totalBytes - 1], start)
        decreases totalBytes - decodeBuffer.position
      {
        var first: byte := 0xF7;
        if start {
          decodeBuffer.position := decodeBuffer.position + 1;
          first := 0xF0;
        }
        ghost var left := decodeBuffer.View()[decodeBuffer.position..totalBytes - 1];
        var bytesLeft := totalBytes - decodeBuffer.position - 1;
        if bytesLeft <= FRAGMENT {
          EmitFragment(first, bytesLeft, 0xF7);
          decodeBuffer.position := 0;
          return;
        }
        EmitFragment(first, FRAGMENT, 0xF0);
        assert left[..FRAGMENT] == decodeBuffer.View()[decodeBuffer.position..decodeBuffer.position + FRAGMENT];
        decodeBuffer.position := decodeBuffer.position + FRAGMENT;
        assert left[FRAGMENT..] == decodeBuffer.View()[decodeBuffer.position..totalBytes - 1];
        start := false;
      }
    }
  }
}
