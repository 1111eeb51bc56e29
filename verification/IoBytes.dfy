/**
  * The byte cursors of include/rtpmidid/iobytes.hpp.
  *
  * A pointer into a buffer is modelled as its offset from the buffer's start.
  * A reader keeps the memory behind it: `size` octets belong to the packet, and
  * at least one more octet exists, because parts of the code look at the octet
  * at `end` before they compare with `end`.
  */
module IoBytes {
  import opened Wrappers

  type byte = x: int | 0 <= x < 0x100
  type uint16 = x: int | 0 <= x < 0x1_0000
  type uint32 = x: int | 0 <= x < 0x1_0000_0000
  type uint64 = x: int | 0 <= x < 0x1_0000_0000_0000_0000

  // ----- big-endian integers

  /** The integer that a big-endian octet string denotes. */
  function BigEndian(s: seq<byte>): nat {
    if s == [] then 0 else BigEndian(s[..|s| - 1]) * 0x100 + s[|s| - 1]
  }

  /** The `n` low octets of `v`, most significant first. */
  function Octets(v: nat, n: nat): (s: seq<byte>)
    ensures |s| == n
  {
    if n == 0 then [] else Octets(v / 0x100, n - 1) + [v % 0x100]
  }

  function Pow256(n: nat): (p: nat)
    ensures p > 0
  {
    if n == 0 then 1 else 0x100 * Pow256(n - 1)
  }

  /** Reading back what was written gives the integer, for every width. */
  lemma {:induction false} BigEndianOfOctets(v: nat, n: nat)
    requires v < Pow256(n)
    ensures BigEndian(Octets(v, n)) == v
  {
    if n > 0 {
      BigEndianOfOctets(v / 0x100, n - 1);
      var s := Octets(v, n);
      assert s[..n - 1] == Octets(v / 0x100, n - 1);
    }
  }

  /** Writing back what was read gives the octets. */
  lemma {:induction false} OctetsOfBigEndian(s: seq<byte>)
    ensures BigEndian(s) < Pow256(|s|)
    ensures Octets(BigEndian(s), |s|) == s
  {
    if s != [] {
      var front, last := s[..|s| - 1], s[|s| - 1];
      OctetsOfBigEndian(front);
      assert BigEndian(s) == BigEndian(front) * 0x100 + last;
      assert BigEndian(s) / 0x100 == BigEndian(front);
      assert s == front + [last];
    }
  }

  lemma {:induction false} PowersOf256()
    ensures Pow256(1) == 0x100
    ensures Pow256(2) == 0x1_0000
    ensures Pow256(4) == 0x1_0000_0000
    ensures Pow256(8) == 0x1_0000_0000_0000_0000
  {
    assert Pow256(0) == 1;
    assert Pow256(3) == 0x100_0000;
    assert Pow256(4) == 0x1_0000_0000;
    assert Pow256(6) == 0x1_0000_0000_0000;
  }

  lemma {:induction false} OctetsTwo(v: nat)
    ensures Octets(v, 2) == [(v / 0x100) % 0x100, v % 0x100]
  {
    assert Octets(v / 0x100, 1) == Octets(v / 0x100 / 0x100, 0) + [v / 0x100 % 0x100];
  }

  lemma {:induction false} OctetsFour(v: nat)
    ensures Octets(v, 4)
         == [(v / 0x100_0000) % 0x100, (v / 0x1_0000) % 0x100, (v / 0x100) % 0x100, v % 0x100]
  {
    OctetsAppend(v, 0);
  }

  lemma {:induction false} OctetsAppend(v: nat, n: nat)
    ensures Octets(v, n + 4)
         == Octets(v / 0x1_0000_0000, n)
            + [(v / 0x100_0000) % 0x100, (v / 0x1_0000) % 0x100, (v / 0x100) % 0x100, v % 0x100]
  {
    var w := v / 0x100_0000;
    assert Octets(v, n + 4) == Octets(v / 0x100, n + 3) + [v % 0x100];
    assert Octets(v / 0x100, n + 3) == Octets(v / 0x1_0000, n + 2) + [(v / 0x100) % 0x100] by {
      assert v / 0x100 / 0x100 == v / 0x1_0000;
    }
    assert Octets(v / 0x1_0000, n + 2) == Octets(w, n + 1) + [(v / 0x1_0000) % 0x100] by {
      assert v / 0x1_0000 / 0x100 == w;
    }
    assert Octets(w, n + 1) == Octets(v / 0x1_0000_0000, n) + [w % 0x100] by {
      assert w / 0x100 == v / 0x1_0000_0000;
    }
  }

  lemma {:induction false} OctetsEight(v: nat)
    ensures Octets(v, 8) == Octets(v / 0x1_0000_0000, 4) + Octets(v % 0x1_0000_0000, 4)
  {
    var h, lo := v / 0x1_0000_0000, v % 0x1_0000_0000;
    OctetsAppend(v, 4);
    OctetsFour(lo);
    hide Octets;
    assert v / 0x100_0000 == h * 0x100 + lo / 0x100_0000;
    assert v / 0x1_0000 == (h * 0x100) * 0x100 + lo / 0x1_0000;
    assert v / 0x100 == (h * 0x1_0000) * 0x100 + lo / 0x100;
    assert v == (h * 0x100_0000) * 0x100 + lo;
    OctetAppended(h, lo / 0x100_0000);
    OctetAppended(h * 0x100, lo / 0x1_0000);
    OctetAppended(h * 0x1_0000, lo / 0x100);
    OctetAppended(h * 0x100_0000, lo);
  }

  lemma {:induction false} OctetAppended(x: nat, y: nat)
    ensures (x * 0x100 + y) % 0x100 == y % 0x100
  {
  }

  lemma {:induction false} BigEndianTwo(a: byte, b: byte)
    ensures BigEndian([a, b]) == a * 0x100 + b
  {
    assert [a, b][..1] == [a];
    assert BigEndian([a]) == BigEndian([a][..0]) * 0x100 + a;
  }

  lemma {:induction false} BigEndianAppend(s: seq<byte>, b: byte)
    ensures BigEndian(s + [b]) == BigEndian(s) * 0x100 + b
  {
    assert (s + [b])[..|s|] == s;
  }

  lemma {:induction false} BigEndianFour(a: byte, b: byte, c: byte, d: byte)
    ensures BigEndian([a, b, c, d]) == a * 0x100_0000 + b * 0x1_0000 + c * 0x100 + d
  {
    BigEndianTwo(a, b);
    BigEndianAppend([a, b], c);
    BigEndianAppend([a, b, c], d);
    assert [a, b] + [c] == [a, b, c];
    assert [a, b, c] + [d] == [a, b, c, d];
  }

  // ----- reading

  class Reader {
    const mem: array<byte>
    const size: nat
    var position: nat

    ghost predicate Valid()
      reads this, mem
    {
      size < mem.Length
    }

    /** The octets of the packet. */
    ghost function View(): (s: seq<byte>)
      reads this, mem
      requires Valid()
      ensures |s| == size
    {
      mem[..size]
    }

    constructor (mem: array<byte>, size: nat)
      requires size < mem.Length
      ensures Valid() && this.mem == mem && this.size == size && position == 0
    {
      this.mem, this.size, position := mem, size, 0;
    }

    method CheckEnough(n: nat) returns (o: Outcome)
      requires Valid()
      ensures o == if position + n > size then Fail(EndOfBuffer) else Pass
    {
      if position + n > size {
        return Fail(EndOfBuffer);
      }
      return Pass;
    }

    method Skip(n: nat) returns (o: Outcome)
      requires Valid()
      modifies this`position
      ensures position == old(position) + n
      ensures o == if position > size then Fail(EndOfBuffer) else Pass
    {
      position := position + n;
      o := if position > size then Fail(EndOfBuffer) else Pass;
    }

    method ReadUint8() returns (r: Result<byte>)
      requires Valid()
      modifies this`position
      ensures old(position) + 1 > size ==> r == Failure(EndOfBuffer) && position == old(position)
      ensures old(position) + 1 <= size ==>
                r == Success(View()[old(position)]) && position == old(position) + 1
    {
      var enough := CheckEnough(1);
      if enough.Fail? {
        return Failure(enough.error);
      }
      position := position + 1;
      return Success(mem[position - 1]);
    }

    method ReadUint16() returns (r: Result<uint16>)
      requires Valid()
      modifies this`position
      ensures old(position) + 2 > size ==> r == Failure(EndOfBuffer) && position == old(position)
      ensures old(position) + 2 <= size ==>
                && r.Success? && r.value == BigEndian(View()[old(position)..old(position) + 2])
                && position == old(position) + 2
    {
      var enough := CheckEnough(2);
      if enough.Fail? {
        return Failure(enough.error);
      }
      var data := position;
      position := position + 2;
      BigEndianTwo(mem[data], mem[data + 1]);
      assert View()[data..data + 2] == [mem[data], mem[data + 1]];
      return Success(mem[data] as int * 0x100 + mem[data + 1] as int);
    }

    method ReadUint32() returns (r: Result<uint32>)
      requires Valid()
      modifies this`position
      ensures old(position) + 4 > size ==> r == Failure(EndOfBuffer) && position == old(position)
      ensures old(position) + 4 <= size ==>
                && r.Success? && r.value == BigEndian(View()[old(position)..old(position) + 4])
                && position == old(position) + 4
    {
      var enough := CheckEnough(4);
      if enough.Fail? {
        return Failure(enough.error);
      }
      var data := position;
      position := position + 4;
      BigEndianFour(mem[data], mem[data + 1], mem[data + 2], mem[data + 3]);
      assert View()[data..data + 4] == [mem[data], mem[data + 1], mem[data + 2], mem[data + 3]];
      return Success(
        mem[data] as int * 0x100_0000 + mem[data + 1] as int * 0x1_0000
        + mem[data + 2] as int * 0x100 + mem[data + 3] as int);
    }

    method ReadUint64() returns (r: Result<uint64>)
      requires Valid()
      modifies this`position
      ensures old(position) + 8 > size ==> r == Failure(EndOfBuffer) && position == old(position)
      ensures old(position) + 8 <= size ==>
                && r.Success? && r.value == BigEndian(View()[old(position)..old(position) + 8])
                && position == old(position) + 8
    {
      var enough := CheckEnough(8);
      if enough.Fail? {
        return Failure(enough.error);
      }
      var d := position;
      position := position + 8;
      ghost var s := View()[d..d + 8];
      BigEndianFour(mem[d], mem[d + 1], mem[d + 2], mem[d + 3]);
      assert s[..4] == [mem[d], mem[d + 1], mem[d + 2], mem[d + 3]];
      BigEndianAppend(s[..4], mem[d + 4]);
      BigEndianAppend(s[..5], mem[d + 5]);
      BigEndianAppend(s[..6], mem[d + 6]);
      BigEndianAppend(s[..7], mem[d + 7]);
      assert s[..4] + [mem[d + 4]] == s[..5];
      assert s[..5] + [mem[d + 5]] == s[..6];
      assert s[..6] + [mem[d + 6]] == s[..7];
      assert s[..7] + [mem[d + 7]] == s;
      return Success(
        mem[d] as int * 0x100_0000_0000_0000 + mem[d + 1] as int * 0x1_0000_0000_0000
        + mem[d + 2] as int * 0x100_0000_0000 + mem[d + 3] as int * 0x1_0000_0000
        + mem[d + 4] as int * 0x100_0000 + mem[d + 5] as int * 0x1_0000
        + mem[d + 6] as int * 0x100 + mem[d + 7] as int);
    }

    /** Reads up to a NUL or up to the end, and steps over it. */
    method ReadStr0() returns (text: seq<byte>)
      requires Valid() && position <= size
      modifies this`position
      ensures text == Str0At(View(), old(position))
      ensures position == old(position) + |text| + 1
    {
      var strStart := position;
      while mem[position] != 0 && position < size
        invariant strStart <= position <= size
        invariant 0 !in mem[strStart..position]
        decreases size - position
      {
        position := position + 1;
      }
      Str0IsPrefix(View(), strStart, position);
      text := mem[strStart..position];
      assert text == View()[strStart..position];
      position := position + 1;
    }
  }

  /** The NUL-terminated string at `from`, or everything up to the end when no NUL follows. */
  function Str0At(s: seq<byte>, from: nat): (text: seq<byte>)
    requires from <= |s|
    ensures from + |text| <= |s|
    decreases |s| - from
  {
    if from == |s| || s[from] == 0 then [] else [s[from]] + Str0At(s, from + 1)
  }

  lemma {:induction false} Str0IsPrefix(s: seq<byte>, from: nat, to: nat)
    requires from <= to <= |s|
    requires 0 !in s[from..to]
    requires to == |s| || s[to] == 0
    ensures Str0At(s, from) == s[from..to]
    decreases |s| - from
  {
    if from < to {
      assert s[from] in s[from..to];
      assert s[from..to] == [s[from]] + s[from + 1..to];
      Str0IsPrefix(s, from + 1, to);
    }
  }

  // ----- writing

  class Writer {
    const mem: array<byte>
    var position: nat

    ghost predicate Valid()
      reads this, mem
    {
      position <= mem.Length
    }

    /** What has been written so far; a reader made from this writer sees just this. */
    function Written(): (s: seq<byte>)
      reads this, mem
      requires Valid()
      ensures |s| == position
    {
      mem[..position]
    }

    /** io_bytes_writer_static: a zeroed buffer of its own. */
    constructor (capacity: nat)
      ensures Valid() && fresh(mem) && mem.Length == capacity && Written() == []
    {
      mem := new byte[capacity](_ => 0);
      position := 0;
    }

    method CheckEnough(n: nat) returns (o: Outcome)
      requires Valid()
      ensures o == if position + n > mem.Length then Fail(EndOfBuffer) else Pass
    {
      if position + n > mem.Length {
        return Fail(EndOfBuffer);
      }
      return Pass;
    }

    method WriteUint8(n: uint16) returns (o: Outcome)
      requires Valid()
      modifies this`position, mem
      ensures Valid()
      ensures o.Pass? <==> old(position) + 1 <= mem.Length
      ensures o.Pass? ==> Written() == old(Written()) + [n % 0x100]
      ensures o.Fail? ==> o == Fail(EndOfBuffer) && Written() == old(Written())
    {
      o := CheckEnough(1);
      if o.Fail? {
        return;
      }
      mem[position] := n % 0x100;
      position := position + 1;
    }

    method WriteUint16(n: uint16) returns (o: Outcome)
      requires Valid()
      modifies this`position, mem
      ensures Valid()
      ensures o.Pass? <==> old(position) + 2 <= mem.Length
      ensures o.Pass? ==> Written() == old(Written()) + Octets(n, 2)
      ensures o.Fail? ==> o == Fail(EndOfBuffer) && Written() == old(Written())
    {
      o := CheckEnough(2);
      if o.Fail? {
        return;
      }
      OctetsTwo(n);
      mem[position] := (n / 0x100) % 0x100;
      mem[position + 1] := n % 0x100;
      position := position + 2;
    }

    method WriteUint32(n: uint32) returns (o: Outcome)
      requires Valid()
      modifies this`position, mem
      ensures Valid()
      ensures o.Pass? <==> old(position) + 4 <= mem.Length
      ensures o.Pass? ==> Written() == old(Written()) + Octets(n, 4)
      ensures o.Fail? ==> o == Fail(EndOfBuffer) && Written() == old(Written())
    {
      o := CheckEnough(4);
      if o.Fail? {
        return;
      }
      OctetsFour(n);
      mem[position] := (n / 0x100_0000) % 0x100;
      mem[position + 1] := (n / 0x1_0000) % 0x100;
      mem[position + 2] := (n / 0x100) % 0x100;
      mem[position + 3] := n % 0x100;
      position := position + 4;
    }

    method WriteUint64(n: uint64) returns (o: Outcome)
      requires Valid()
      modifies this`position, mem
      ensures Valid()
      ensures o.Pass? <==> old(position) + 8 <= mem.Length
      ensures o.Pass? ==> Written() == old(Written()) + Octets(n, 8)
      ensures o.Fail? ==> o == Fail(EndOfBuffer) && Written() == old(Written())
    {
      o := CheckEnough(8);
      if o.Fail? {
        return;
      }
      OctetsEight(n);
      o := WriteUint32(n / 0x1_0000_0000);
      o := WriteUint32(n % 0x1_0000_0000);
    }

    /** The bound leaves the NUL out, so the caller must not fill the buffer to the brim. */
    method WriteStr0(text: seq<byte>) returns (o: Outcome)
      requires Valid()
      requires position + |text| != mem.Length
      modifies this`position, mem
      ensures Valid()
      ensures o.Pass? <==> old(position) + |text| + 1 <= mem.Length
      ensures o.Pass? ==> Written() == old(Written()) + text + [0]
      ensures o.Fail? ==> o == Fail(EndOfBuffer) && Written() == old(Written())
    {
      o := CheckEnough(|text|);
      if o.Fail? {
        return;
      }
      ghost var before := Written();
      var i := 0;
      while i < |text|
        invariant 0 <= i <= |text|
        invariant position == |before| + i
        invariant position + (|text| - i) < mem.Length
        invariant Written() == before + text[..i]
      {
        mem[position] := text[i];
        position := position + 1;
        i := i + 1;
      }
      mem[position] := 0;
      position := position + 1;
    }

    /** copy_from(from, count): copies from the other cursor's position, and leaves it there. */
    method CopyFrom(from: Reader, count: nat) returns (o: Outcome)
      requires Valid() && from.Valid() && from.mem != mem
      modifies this`position, mem
      ensures Valid()
      ensures o.Pass? <==> old(position) + count <= mem.Length && from.position + count <= from.size
      ensures o.Pass? ==> Written() == old(Written()) + from.View()[from.position..from.position + count]
      ensures o.Fail? ==> o == Fail(EndOfBuffer) && Written() == old(Written())
    {
      o := CheckEnough(count);
      if o.Fail? {
        return;
      }
      o := from.CheckEnough(count);
      if o.Fail? {
        return;
      }
      ghost var copied := from.View()[from.position..from.position + count];
      forall i | 0 <= i < count {
        mem[position + i] := from.mem[from.position + i];
      }
      position := position + count;
      assert from.View() == old(from.View());
      assert mem[old(position)..position] == copied;
    }
  }
}
