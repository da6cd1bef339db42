/** Packet: a 1024-byte buffer with a read, a write and a size cursor. */
module Packets {
  import opened PacketFormat

  const CAPACITY: nat := 1024

  /** `s` with `part` stored from position `at` on. */
  function Overwrite(s: seq<byte>, at: nat, part: seq<byte>): (r: seq<byte>)
    requires at + |part| <= |s|
    ensures |r| == |s|
  {
    s[..at] + part + s[at + |part|..]
  }

  /** Stores one after another are one store of the concatenation. */
  lemma OverwriteTwice(s: seq<byte>, at: nat, a: seq<byte>, b: seq<byte>)
    requires at + |a| + |b| <= |s|
    ensures Overwrite(Overwrite(s, at, a), at + |a|, b) == Overwrite(s, at, a + b)
  {
  }

  lemma OverwriteNothing(s: seq<byte>, at: nat)
    requires at <= |s|
    ensures Overwrite(s, at, []) == s
  {
  }

  lemma SliceOfPrefix(s: seq<byte>, end: nat, from: nat, to: nat)
    requires from <= to <= end <= |s|
    ensures s[..end][from..to] == s[from..to]
  {
  }

  /** One byte more of `part` is stored. */
  lemma NextByte(s: seq<byte>, at: nat, part: seq<byte>, k: nat)
    requires k < |part| && at + |part| <= |s|
    ensures Overwrite(Overwrite(s, at, part[..k]), at + k, ToBytes(part[k], 1)) == Overwrite(s, at, part[..k + 1])
  {
    assert ToBytes(part[k], 1) == [part[k]];
    assert part[..k + 1] == part[..k] + [part[k]];
    OverwriteTwice(s, at, part[..k], [part[k]]);
  }

  lemma PutKeepsBefore(s: seq<byte>, at: nat, part: seq<byte>, t: seq<byte>)
    requires at + |part| <= |s| && t == Overwrite(s, at, part)
    ensures forall j :: 0 <= j < at ==> t[j] == s[j]
  {
  }

  function Max(x: nat, y: nat, z: nat): nat {
    if x >= y && x >= z then x else if y >= z then y else z
  }

  /** What is stored after `at` are the bytes of `source` from its fourth one up to `end`; the rest stays. */
  ghost predicate Appended(before: seq<byte>, at: nat, source: seq<byte>, end: nat, after: seq<byte>)
    requires |before| == |source| == |after| == CAPACITY && 4 <= end && at + end - 4 <= CAPACITY && end <= CAPACITY
  {
    && (forall i :: 4 <= i < end ==> after[at + i - 4] == source[i])
    && (forall j :: 0 <= j < at || at + end - 4 <= j < CAPACITY ==> after[j] == before[j])
  }

  lemma PayloadIsAppended(before: seq<byte>, at: nat, source: seq<byte>, end: nat, after: seq<byte>)
    requires |before| == |source| == |after| == CAPACITY && 4 <= end && at + end - 4 <= CAPACITY && end <= CAPACITY
    requires after == Overwrite(before, at, source[4..end])
    ensures Appended(before, at, source, end, after)
  {
    forall i | 4 <= i < end
      ensures after[at + i - 4] == source[i]
    {
      assert source[4..end][i - 4] == source[i];
    }
  }

  class Packet {
    var read: nat
    var size: nat
    var write: nat
    const buffer: array<byte>

    ghost predicate Valid()
      reads this, buffer
    {
      buffer.Length == CAPACITY && size <= CAPACITY && write <= CAPACITY && read <= BufferLen()
    }

    function BufferLen(): nat
      reads this
    {
      if size < write then write else size
    }

    /** What reads can see. */
    ghost function Readable(): seq<byte>
      requires Valid()
      reads this, buffer
    {
      buffer[..BufferLen()]
    }

    /** What embedding takes: everything after the four bytes of the header. */
    ghost function Payload(): seq<byte>
      requires Valid()
      reads this, buffer
    {
      if BufferLen() >= 4 then buffer[4..BufferLen()] else []
    }

    constructor ()
      ensures Valid() && fresh(buffer) && read == write == size == 0
    {
      read, size, write := 0, 0, 0;
      buffer := new byte[CAPACITY];
    }

    constructor WithOpcode(opcode: nat)
      requires opcode < 65536
      ensures Valid() && fresh(buffer) && read == size == 0 && write == 4
      ensures buffer[..4] == ToBytes(opcode, 2) + ToBytes(0, 2)
      ensures buffer[0] == opcode % 256 && buffer[1] == opcode / 256 && buffer[2] == buffer[3] == 0
    {
      read, size, write := 0, 0, 0;
      buffer := new byte[CAPACITY];
      new;
      Put(opcode, 2);
      Put(0, 2);
      TwoBytesOf(opcode);
      TwoBytesOf(0);
      assert buffer[..4][0] == buffer[0] && buffer[..4][1] == buffer[1];
      assert buffer[..4][2] == buffer[2] && buffer[..4][3] == buffer[3];
    }

    constructor Copy(from: Packet, size: nat)
      requires from.Valid() && size <= CAPACITY
      ensures Valid() && fresh(buffer) && this.size == size && write == read == 0
      ensures Readable() == from.buffer[..size]
    {
      this.read, this.size, this.write := 0, size, 0;
      buffer := new byte[CAPACITY];
      new;
      forall i | 0 <= i < size { buffer[i] := from.buffer[i]; }
    }

    // ---------- Writing ----------

    /** An integer of `width` bytes is stored at the write cursor. */
    method Put(n: nat, width: nat)
      requires Valid() && write + width <= CAPACITY
      modifies this`write, buffer
      ensures Valid() && write == old(write) + width
      ensures buffer[..] == Overwrite(old(buffer[..]), old(write), ToBytes(n, width))
    {
      var bytes := ToBytes(n, width);
      forall i | 0 <= i < width { buffer[write + i] := bytes[i]; }
      write := write + width;
    }

    /** One byte of a string. */
    method PutCharacter(text: seq<byte>, i: nat, ghost before: seq<byte>, ghost start: nat)
      requires Valid() && i < |text| && start + |text| <= CAPACITY && write == start + i && |before| == CAPACITY
      requires buffer[..] == Overwrite(before, start, text[..i])
      modifies this`write, buffer
      ensures Valid() && write == start + i + 1 && buffer[..] == Overwrite(before, start, text[..i + 1])
    {
      Put(text[i], 1);
      NextByte(before, start, text, i);
    }

    /** The loop over the bytes of a string. */
    method PutText(text: seq<byte>)
      requires Valid() && write + |text| <= CAPACITY
      modifies this`write, buffer
      ensures Valid() && write == old(write) + |text| && buffer[..] == Overwrite(old(buffer[..]), old(write), text)
    {
      ghost var start, before := write, buffer[..];
      assert text[..0] == [];
      OverwriteNothing(before, start);
      for i := 0 to |text|
        invariant Valid() && write == start + i && buffer[..] == Overwrite(before, start, text[..i])
      {
        PutCharacter(text, i, before, start);
      }
      assert text[..|text|] == text;
    }

    method WriteText(s: seq<byte>)
      requires Valid() && write + 2 + StoredLength(s) <= CAPACITY
      modifies this`write, buffer
      ensures Valid() && write == old(write) + |Encode(Text(s))|
      ensures buffer[..] == Overwrite(old(buffer[..]), old(write), Encode(Text(s)))
    {
      var length := |s| % 65536;
      Put(length, 2);
      PutText(s[..length]);
      OverwriteTwice(old(buffer[..]), old(write), ToBytes(length, 2), s[..length]);
    }

    method WriteVec2(x: nat, y: nat)
      requires Valid() && write + 8 <= CAPACITY
      modifies this`write, buffer
      ensures Valid() && write == old(write) + 8
      ensures buffer[..] == Overwrite(old(buffer[..]), old(write), ToBytes(x, 4) + ToBytes(y, 4))
    {
      Put(x, 4);
      Put(y, 4);
      OverwriteTwice(old(buffer[..]), old(write), ToBytes(x, 4), ToBytes(y, 4));
    }

    method WriteVec3(x: nat, y: nat, z: nat)
      requires Valid() && write + 12 <= CAPACITY
      modifies this`write, buffer
      ensures Valid() && write == old(write) + 12
      ensures buffer[..] == Overwrite(old(buffer[..]), old(write), ToBytes(x, 4) + ToBytes(y, 4) + ToBytes(z, 4))
    {
      WriteVec2(x, y);
      Put(z, 4);
      OverwriteTwice(old(buffer[..]), old(write), ToBytes(x, 4) + ToBytes(y, 4), ToBytes(z, 4));
    }

    /** operator<<, by the type of the value. */
    method Write(v: Value)
      requires Valid() && write + |Encode(v)| <= CAPACITY
      modifies this`write, buffer
      ensures Valid() && write == old(write) + |Encode(v)|
      ensures buffer[..] == Overwrite(old(buffer[..]), old(write), Encode(v))
    {
      match v {
        case Int(width, n) => Put(n, width);
        case Float(bits) => Put(bits, 4);
        case Vec2(x, y) => WriteVec2(x, y);
        case Vec3(x, y, z) => WriteVec3(x, y, z);
        case Text(s) => WriteText(s);
      }
    }

    /** A chain of <<. */
    method WriteAll(vs: seq<Value>)
      requires Valid() && write + |EncodeAll(vs)| <= CAPACITY
      modifies this`write, buffer
      ensures Valid() && write == old(write) + |EncodeAll(vs)|
      ensures buffer[..] == Overwrite(old(buffer[..]), old(write), EncodeAll(vs))
    {
      OverwriteNothing(buffer[..], write);
      for i := 0 to |vs|
        invariant Valid() && write == old(write) + |EncodeAll(vs[..i])|
        invariant buffer[..] == Overwrite(old(buffer[..]), old(write), EncodeAll(vs[..i]))
      {
        EncodeAllNext(vs, i);
        Write(vs[i]);
        OverwriteTwice(old(buffer[..]), old(write), EncodeAll(vs[..i]), Encode(vs[i]));
      }
      assert vs[..|vs|] == vs;
    }

    /** operator<<(Packet*): the payload of another packet, up to the furthest of its three cursors. A packet that
        is embedded in itself reads what it writes if it holds received bytes past its write cursor. */
    method Embed(packet: Packet)
      requires Valid() && packet.Valid() && (packet == this || packet.buffer != buffer)
      requires write + |packet.Payload()| <= CAPACITY
      modifies this`write, buffer
      ensures Valid() && write == old(write) + Max(old(packet.size), old(packet.write), 4) - 4
      ensures packet != this || old(size <= write) ==>
                var end := Max(old(packet.size), old(packet.write), 4);
                Appended(old(buffer[..]), old(write), old(packet.buffer[..]), end, buffer[..])
      ensures packet != this || old(size <= write) ==>
                buffer[..] == Overwrite(old(buffer[..]), old(write), old(packet.Payload()))
    {
      var end := packet.read;
      if end < packet.size {
        end := packet.size;
      }
      if end < packet.write {
        end := packet.write;
      }
      ghost var payload := packet.Payload();
      EmbedUpTo(packet, end, payload);
      if packet != this || old(size <= write) {
        ghost var source, last := old(packet.buffer[..]), Max(end, 0, 4);
        assert payload == source[4..last];
        PayloadIsAppended(old(buffer[..]), old(write), source, last, buffer[..]);
      }
    }

    method EmbedUpTo(packet: Packet, end: nat, ghost payload: seq<byte>)
      requires Valid() && packet.Valid() && (packet == this || packet.buffer != buffer)
      requires end == packet.BufferLen() && payload == packet.Payload() && write + |payload| <= CAPACITY
      modifies this`write, buffer
      ensures Valid() && write == old(write) + |payload|
      ensures packet != this || old(size <= write) ==>
                buffer[..] == Overwrite(old(buffer[..]), old(write), payload)
    {
      if end >= 4 {
        EmbedRange(packet, end, payload);
      } else {
        OverwriteNothing(buffer[..], write);
      }
    }

    /** The bytes up to position i are embedded, if the packet does not overwrite what it reads. */
    ghost predicate EmbeddedUpTo(packet: Packet, payload: seq<byte>, i: nat, before: seq<byte>, start: nat)
      reads this, buffer, packet, packet.buffer
    {
      && Unread(packet, payload) && 4 <= i <= 4 + |payload| && start + |payload| <= |before|
      && buffer[..] == Overwrite(before, start, payload[..i - 4])
    }

    method EmbedAt(packet: Packet, i: nat, end: nat, ghost payload: seq<byte>, ghost before: seq<byte>,
                   ghost start: nat)
      requires Valid() && (packet == this || packet.buffer != buffer) && packet.buffer.Length == CAPACITY
      requires 4 <= i < end <= CAPACITY && |payload| == end - 4 && write == start + (i - 4) && write < CAPACITY
      modifies this`write, buffer
      ensures Valid() && write == start + (i - 3)
      ensures old(EmbeddedUpTo(packet, payload, i, before, start)) && (packet != this || end <= start) ==>
                EmbeddedUpTo(packet, payload, i + 1, before, start)
    {
      ghost var ready := EmbeddedUpTo(packet, payload, i, before, start);
      EmbedByte(packet, i, end);
      if ready {
        NextByte(before, start, payload, i - 4);
      }
    }

    method EmbedRange(packet: Packet, end: nat, ghost payload: seq<byte>)
      requires Valid() && packet.Valid() && (packet == this || packet.buffer != buffer)
      requires 4 <= end <= CAPACITY && write + (end - 4) <= CAPACITY && payload == packet.buffer[4..end]
      requires packet == this ==> end == BufferLen()
      modifies this`write, buffer
      ensures Valid() && write == old(write) + (end - 4)
      ensures packet != this || old(size <= write) ==>
                buffer[..] == Overwrite(old(buffer[..]), old(write), payload)
    {
      ghost var apart, before, start := packet != this || size <= write, buffer[..], write;
      OverwriteNothing(before, start);
      assert payload[..0] == [];
      for i := 4 to end
        invariant Valid() && write == start + (i - 4)
        invariant apart ==> EmbeddedUpTo(packet, payload, i, before, start)
      {
        EmbedAt(packet, i, end, payload, before, start);
      }
      assert payload[..end - 4] == payload;
    }

    /** What is embedded has not been overwritten meanwhile. */
    ghost predicate Unread(packet: Packet, payload: seq<byte>)
      reads packet, packet.buffer
    {
      && packet.buffer.Length == CAPACITY && 4 + |payload| <= CAPACITY
      && forall j :: 4 <= j < 4 + |payload| ==> packet.buffer[j] == payload[j - 4]
    }

    method EmbedByte(packet: Packet, i: nat, ghost end: nat)
      requires Valid() && (packet == this || packet.buffer != buffer)
      requires packet.buffer.Length == CAPACITY && i < end <= CAPACITY && write < CAPACITY
      modifies this`write, buffer
      ensures Valid() && write == old(write) + 1
      ensures buffer[..] == Overwrite(old(buffer[..]), old(write), ToBytes(old(packet.buffer[i]), 1))
      ensures packet != this || end <= old(write) ==>
                forall j :: 0 <= j < end ==> packet.buffer[j] == old(packet.buffer[j])
    {
      Put(packet.buffer[i], 1);
      PutKeepsBefore(old(buffer[..]), old(write), ToBytes(old(packet.buffer[i]), 1), buffer[..]);
    }

    /** The length of the payload goes into the header; what is sent ends at the write cursor. */
    method SendBuffer() returns (r: seq<byte>)
      requires Valid()
      modifies buffer
      ensures Valid() && r == buffer[..write]
      ensures buffer[..] == Overwrite(old(buffer[..]), 2, ToBytes((write + 65536 - 4) % 65536, 2))
    {
      var bytes := ToBytes((write + 65536 - 4) % 65536, 2);
      buffer[2], buffer[3] := bytes[0], bytes[1];
      r := buffer[..write];
    }

    method Reset()
      requires Valid()
      modifies this`read, this`write, this`size
      ensures Valid() && read == write == size == 0
    {
      read, write, size := 0, 0, 0;
    }

    // ---------- Reading ----------

    method PeekAt(width: nat, offset: nat) returns (r: Result<nat>)
      requires Valid()
      ensures r == Peek(Readable(), offset, width)
    {
      if offset + width > BufferLen() {
        return ReadOutOfBounds;
      }
      SliceOfPrefix(buffer[..], BufferLen(), offset, offset + width);
      r := Ok(FromBytes(buffer[offset..offset + width]));
    }

    method ReadInt(width: nat) returns (r: Result<nat>)
      requires Valid()
      modifies this`read
      ensures Valid() && r == Peek(Readable(), old(read), width)
      ensures read == old(read) + if r.Ok? then width else 0
    {
      r := PeekAt(width, read);
      if r.Ok? {
        read := read + width;
      }
    }

    /** read(length): the next bytes as they are. */
    method ReadBytes(length: nat) returns (r: Result<seq<byte>>)
      requires Valid()
      modifies this`read
      ensures Valid()
      ensures r == if old(read) + length > BufferLen() then ReadOutOfBounds
                   else Ok(Readable()[old(read)..old(read) + length])
      ensures read == old(read) + if r.Ok? then length else 0
    {
      if read + length > BufferLen() {
        return ReadOutOfBounds;
      }
      SliceOfPrefix(buffer[..], BufferLen(), read, read + length);
      r := Ok(buffer[read..read + length]);
      read := read + length;
    }

    method ReadFloats(count: nat) returns (r: Result<Value>)
      requires Valid() && 1 <= count <= 3
      modifies this`read
      ensures Valid() && (r, read) == DecodeFloats(Readable(), old(read), count)
    {
      var x := ReadInt(4);
      if x.ReadOutOfBounds? {
        return ReadOutOfBounds;
      }
      if count == 1 {
        return Ok(Float(x.value));
      }
      var y := ReadInt(4);
      if y.ReadOutOfBounds? {
        return ReadOutOfBounds;
      }
      if count == 2 {
        return Ok(Vec2(x.value, y.value));
      }
      var z := ReadInt(4);
      if z.ReadOutOfBounds? {
        return ReadOutOfBounds;
      }
      r := Ok(Vec3(x.value, y.value, z.value));
    }

    method ReadText() returns (r: Result<Value>)
      requires Valid()
      modifies this`read
      ensures Valid() && (r, read) == DecodeText(Readable(), old(read))
    {
      var length := ReadInt(2);
      if length.ReadOutOfBounds? {
        return ReadOutOfBounds;
      }
      var bytes := ReadBytes(length.value);
      if bytes.ReadOutOfBounds? {
        return ReadOutOfBounds;
      }
      r := Ok(Text(bytes.value));
    }

    /** read<T>(), by the type asked for. */
    method Read(k: Kind) returns (r: Result<Value>)
      requires Valid()
      modifies this`read
      ensures Valid() && (r, read) == Decode(k, Readable(), old(read))
    {
      match k {
        case IntKind(width) =>
          var n := ReadInt(width);
          r := if n.Ok? then Ok(Int(width, n.value)) else ReadOutOfBounds;
        case FloatKind => r := ReadFloats(1);
        case Vec2Kind => r := ReadFloats(2);
        case Vec3Kind => r := ReadFloats(3);
        case TextKind => r := ReadText();
      }
    }

    /** Reads one after another; an exception ends them. */
    method ReadAll(ks: seq<Kind>) returns (r: Result<seq<Value>>)
      requires Valid()
      modifies this`read
      ensures Valid() && (r, read) == DecodeAll(ks, Readable(), old(read))
      decreases |ks|
    {
      if ks == [] {
        return Ok([]);
      }
      var v := Read(ks[0]);
      if v.ReadOutOfBounds? {
        return ReadOutOfBounds;
      }
      var rest := ReadAll(ks[1..]);
      r := if rest.Ok? then Ok([v.value] + rest.value) else ReadOutOfBounds;
    }
  }

  lemma EncodeAllNext(vs: seq<Value>, i: nat)
    requires i < |vs|
    ensures EncodeAll(vs[..i + 1]) == EncodeAll(vs[..i]) + Encode(vs[i])
    ensures |EncodeAll(vs[..i])| + |Encode(vs[i])| <= |EncodeAll(vs)|
  {
    EncodeAllJoins(vs[..i], [vs[i]]);
    EncodeAllOneMore(vs[i], []);
    assert [vs[i]] + [] == [vs[i]];
    assert vs[..i + 1] == vs[..i] + [vs[i]] && vs == vs[..i + 1] + vs[i + 1..];
    EncodeAllJoins(vs[..i + 1], vs[i + 1..]);
  }

  /** What a packet created with an opcode sends after a list of values is written to it: the frame. */
  lemma SentIsFrame(created: seq<byte>, opcode: nat, vs: seq<Value>)
    requires |created| == CAPACITY && created[..4] == ToBytes(opcode, 2) + ToBytes(0, 2)
    requires 4 + |EncodeAll(vs)| <= CAPACITY
    ensures var write := 4 + |EncodeAll(vs)|;
            var sent := Overwrite(Overwrite(created, 4, EncodeAll(vs)), 2, ToBytes((write + 65536 - 4) % 65536, 2));
            sent[..write] == Frame(opcode, vs)
  {
    HeaderAndPayload(created, ToBytes(opcode, 2), ToBytes(0, 2), ToBytes(|EncodeAll(vs)|, 2), EncodeAll(vs));
  }

  lemma HeaderAndPayload(created: seq<byte>, opcode: seq<byte>, zero: seq<byte>, length: seq<byte>, payload: seq<byte>)
    requires |opcode| == |zero| == |length| == 2 && 4 + |payload| <= |created| && created[..4] == opcode + zero
    ensures Overwrite(Overwrite(created, 4, payload), 2, length)[..4 + |payload|] == opcode + length + payload
  {
    var written := Overwrite(created, 4, payload);
    var sent := Overwrite(written, 2, length);
    assert written[4..4 + |payload|] == payload;
    assert forall i :: 4 <= i < |sent| ==> sent[i] == written[i];
    assert sent[..2] == created[..4][..2] == opcode;
    assert sent[2..4] == length;
    assert sent[4..4 + |payload|] == written[4..4 + |payload|];
    assert sent[..4 + |payload|] == sent[..2] + sent[2..4] + sent[4..4 + |payload|];
  }

  /** The values written at the write cursor of a packet are read back from there, whatever was before or follows. */
  lemma WrittenIsReadBack(before: seq<byte>, at: nat, vs: seq<Value>, len: nat)
    requires InRangeAll(vs) && ShortTexts(vs) && at + |EncodeAll(vs)| <= len <= |before|
    ensures DecodeAll(KindsOf(vs), Overwrite(before, at, EncodeAll(vs))[..len], at) == (Ok(vs), at + |EncodeAll(vs)|)
  {
    var s := Overwrite(before, at, EncodeAll(vs))[..len];
    assert s[at..at + |EncodeAll(vs)|] == EncodeAll(vs);
    RoundTripAll(vs, s, at);
    StoredAllIsSame(vs);
  }

  /** Embedding a packet that holds a frame is writing its values. */
  lemma FramePayload(opcode: nat, vs: seq<Value>)
    ensures Frame(opcode, vs)[4..] == EncodeAll(vs)
  {
  }
}
