/** The bytes of a packet: how typed values are laid out one after another, and how they are read back. */
module PacketFormat {

  type byte = x: int | 0 <= x < 256

  datatype Result<T> = Ok(value: T) | ReadOutOfBounds

  // ---------- Integers, little endian ----------

  function Pow256(k: nat): (r: nat)
    ensures r >= 1
  {
    if k == 0 then 1 else 256 * Pow256(k - 1)
  }

  /** The k low bytes of n, the lowest first. */
  function ToBytes(n: nat, k: nat): (r: seq<byte>)
    ensures |r| == k
  {
    if k == 0 then [] else [n % 256] + ToBytes(n / 256, k - 1)
  }

  function FromBytes(s: seq<byte>): (r: nat)
  {
    if s == [] then 0 else s[0] + 256 * FromBytes(s[1..])
  }

  lemma {:induction false} FromToBytes(n: nat, k: nat)
    requires n < Pow256(k)
    ensures FromBytes(ToBytes(n, k)) == n
  {
    if k > 0 {
      FromToBytes(n / 256, k - 1);
      assert ToBytes(n, k)[1..] == ToBytes(n / 256, k - 1);
    }
  }

  lemma {:induction false} ToFromBytes(s: seq<byte>)
    ensures FromBytes(s) < Pow256(|s|) && ToBytes(FromBytes(s), |s|) == s
  {
    if s != [] {
      ToFromBytes(s[1..]);
      var rest := FromBytes(s[1..]);
      assert (s[0] + 256 * rest) / 256 == rest && (s[0] + 256 * rest) % 256 == s[0];
      assert s == [s[0]] + s[1..];
    }
  }

  lemma AtLeastOnce(d: nat, k: int)
    requires k >= 1
    ensures d * k >= d
  {
  }

  lemma SameQuotient(d: nat, q: int, r: int, p: int, s: int)
    requires d * q + r == d * p + s && 0 <= r < d && 0 <= s < d
    ensures q == p
  {
    assert d * (q - p) == s - r && d * (p - q) == r - s;
    if q > p {
      AtLeastOnce(d, q - p);
    } else if q < p {
      AtLeastOnce(d, p - q);
    }
  }

  lemma QuotientIsUnique(n: nat, d: nat, q: nat, r: nat)
    requires d > 0 && n == d * q + r && r < d
    ensures n / d == q
  {
    SameQuotient(d, n / d, n % d, q, r);
  }

  lemma QuotientTwice(n: nat, p: nat)
    requires p > 0
    ensures n / 256 / p == n / (256 * p)
  {
    var m := n / 256;
    var q, r := m / p, m % p;
    assert m == p * q + r && n == 256 * m + n % 256;
    assert n == (256 * p) * q + (256 * r + n % 256);
    QuotientIsUnique(n, 256 * p, q, 256 * r + n % 256);
  }

  /** Byte i of a number is its digit i to the base 256: the lowest comes first. */
  lemma {:induction false} ByteOfNumber(n: nat, k: nat, i: nat)
    requires i < k
    ensures ToBytes(n, k)[i] == n / Pow256(i) % 256
    decreases k
  {
    if i > 0 {
      ByteOfNumber(n / 256, k - 1, i - 1);
      QuotientTwice(n, Pow256(i - 1));
    }
  }

  // ---------- Typed values ----------

  /** What one << writes: an integer of `width` bytes, the bits of floats, the characters of a string. */
  datatype Value =
    | Int(width: nat, n: nat)
    | Float(bits: nat)
    | Vec2(x: nat, y: nat)
    | Vec3(x: nat, y: nat, z: nat)
    | Text(s: seq<byte>)

  /** The type a read asks for. */
  datatype Kind = IntKind(width: nat) | FloatKind | Vec2Kind | Vec3Kind | TextKind

  function KindOf(v: Value): Kind {
    match v
    case Int(width, _) => IntKind(width)
    case Float(_) => FloatKind
    case Vec2(_, _) => Vec2Kind
    case Vec3(_, _, _) => Vec3Kind
    case Text(_) => TextKind
  }

  const FLOAT_VALUES: nat := Pow256(4)

  /** The value is one of its C++ type. */
  predicate InRange(v: Value) {
    match v
    case Int(width, n) => n < Pow256(width)
    case Float(bits) => bits < FLOAT_VALUES
    case Vec2(x, y) => x < FLOAT_VALUES && y < FLOAT_VALUES
    case Vec3(x, y, z) => x < FLOAT_VALUES && y < FLOAT_VALUES && z < FLOAT_VALUES
    case Text(_) => true
  }

  /** The length of a string is stored in 16 bits. */
  function StoredLength(s: seq<byte>): (r: nat)
    ensures r <= |s|
  {
    |s| % 65536
  }

  function Encode(v: Value): seq<byte> {
    match v
    case Int(width, n) => ToBytes(n, width)
    case Float(bits) => ToBytes(bits, 4)
    case Vec2(x, y) => ToBytes(x, 4) + ToBytes(y, 4)
    case Vec3(x, y, z) => ToBytes(x, 4) + ToBytes(y, 4) + ToBytes(z, 4)
    case Text(s) => ToBytes(StoredLength(s), 2) + s[..StoredLength(s)]
  }

  lemma LowBytes(n: nat, k: nat, low: nat)
    requires n == 65536 * k + low && low < 65536
    ensures low % 256 == n % 256 && low / 256 == n / 256 - 256 * k && low / 256 == n / 256 % 256
  {
  }

  lemma TwoBytesOf(length: nat)
    ensures ToBytes(length, 2) == [length % 256, length / 256 % 256]
  {
    assert ToBytes(length / 256, 1) == [length / 256 % 256];
  }

  /** The bytes of a string: its length modulo 65536, the low byte first, and then that many characters. */
  lemma TextLayout(s: seq<byte>)
    ensures var r := Encode(Text(s));
            && |r| == 2 + |s| % 65536 && r[0] == |s| % 256 && r[1] == |s| / 256 % 256
            && forall i :: 0 <= i < |s| % 65536 ==> r[2 + i] == s[i]
  {
    TwoBytesOf(StoredLength(s));
    LowBytes(|s|, |s| / 65536, StoredLength(s));
  }

  /** The bytes of two or three floats: the bits of each in four bytes, x first. */
  lemma VectorLayout(x: nat, y: nat, z: nat, i: nat)
    requires i < 4
    ensures var r := Encode(Vec2(x, y));
            |r| == 8 && r[i] == x / Pow256(i) % 256 && r[4 + i] == y / Pow256(i) % 256
    ensures var r := Encode(Vec3(x, y, z));
            |r| == 12 && r[i] == x / Pow256(i) % 256 && r[4 + i] == y / Pow256(i) % 256
            && r[8 + i] == z / Pow256(i) % 256
  {
    ByteOfNumber(x, 4, i);
    ByteOfNumber(y, 4, i);
    ByteOfNumber(z, 4, i);
  }

  /** Pieces one after another. */
  function Joined(parts: seq<seq<byte>>): seq<byte> {
    if parts == [] then [] else parts[0] + Joined(parts[1..])
  }

  function Encodings(vs: seq<Value>): (r: seq<seq<byte>>)
    ensures |r| == |vs|
  {
    seq(|vs|, i requires 0 <= i < |vs| => Encode(vs[i]))
  }

  function EncodeAll(vs: seq<Value>): seq<byte> { Joined(Encodings(vs)) }

  /** peek: an integer of `width` bytes at `at`, unless it ends after the buffer does. */
  function Peek(s: seq<byte>, at: nat, width: nat): Result<nat> {
    if at + width > |s| then ReadOutOfBounds else Ok(FromBytes(s[at..at + width]))
  }

  /** A read: the value, if there is one, and the new cursor. A read of several parts that fails leaves the cursor
      behind the parts it got. */
  function Decode(k: Kind, s: seq<byte>, at: nat): (Result<Value>, nat) {
    match k
    case IntKind(width) => DecodeInt(s, at, width)
    case FloatKind => DecodeFloats(s, at, 1)
    case Vec2Kind => DecodeFloats(s, at, 2)
    case Vec3Kind => DecodeFloats(s, at, 3)
    case TextKind => DecodeText(s, at)
  }

  function DecodeInt(s: seq<byte>, at: nat, width: nat): (Result<Value>, nat) {
    match Peek(s, at, width)
    case ReadOutOfBounds => (ReadOutOfBounds, at)
    case Ok(n) => (Ok(Int(width, n)), at + width)
  }

  function DecodeFloats(s: seq<byte>, at: nat, count: nat): (Result<Value>, nat)
    requires 1 <= count <= 3
  {
    var x := Peek(s, at, 4);
    if x.ReadOutOfBounds? then (ReadOutOfBounds, at)
    else if count == 1 then (Ok(Float(x.value)), at + 4)
    else
      var y := Peek(s, at + 4, 4);
      if y.ReadOutOfBounds? then (ReadOutOfBounds, at + 4)
      else if count == 2 then (Ok(Vec2(x.value, y.value)), at + 8)
      else
        var z := Peek(s, at + 8, 4);
        if z.ReadOutOfBounds? then (ReadOutOfBounds, at + 8)
        else (Ok(Vec3(x.value, y.value, z.value)), at + 12)
  }

  function DecodeText(s: seq<byte>, at: nat): (Result<Value>, nat) {
    match Peek(s, at, 2)
    case ReadOutOfBounds => (ReadOutOfBounds, at)
    case Ok(length) =>
      if at + 2 + length > |s| then (ReadOutOfBounds, at + 2)
      else (Ok(Text(s[at + 2..at + 2 + length])), at + 2 + length)
  }

  /** A read of floats, and so of vectors, moves the cursor over every whole float that is there, up to as many as it
      asks for, and succeeds iff that is all of them. */
  lemma FloatsCursor(s: seq<byte>, at: nat, count: nat)
    requires 1 <= count <= 3 && at <= |s|
    ensures var (r, next), whole := DecodeFloats(s, at, count), (|s| - at) / 4;
            && (r.Ok? <==> whole >= count)
            && next == at + 4 * (if whole < count then whole else count)
  {
  }

  /** A read of a string that fails leaves the cursor where it was, or behind the length if that was there. */
  lemma TextCursor(s: seq<byte>, at: nat)
    requires at <= |s|
    ensures var (r, next) := DecodeText(s, at);
            && (|s| - at < 2 ==> r.ReadOutOfBounds? && next == at)
            && (|s| - at >= 2 ==>
                  var length := s[at] as int + 256 * (s[at + 1] as int);
                  && (r.Ok? <==> |s| - at >= 2 + length)
                  && next == if r.Ok? then at + 2 + length else at + 2)
  {
    if |s| - at >= 2 {
      var two := s[at..at + 2];
      assert two[1..] == [s[at + 1]] && [s[at + 1]][1..] == [];
      assert FromBytes(two) == s[at] as int + 256 * FromBytes(two[1..]);
      assert FromBytes([s[at + 1]]) == s[at + 1] as int + 256 * FromBytes([]);
    }
  }

  /** Reads in order, up to the first that fails. */
  function DecodeAll(ks: seq<Kind>, s: seq<byte>, at: nat): (Result<seq<Value>>, nat)
    decreases |ks|
  {
    if ks == [] then (Ok([]), at)
    else
      var (v, next) := Decode(ks[0], s, at);
      if v.ReadOutOfBounds? then (ReadOutOfBounds, next)
      else
        var (vs, end) := DecodeAll(ks[1..], s, next);
        if vs.ReadOutOfBounds? then (ReadOutOfBounds, end) else (Ok([v.value] + vs.value), end)
  }

  // ---------- Round trip ----------

  /** What comes back: a string is cut to the length that 16 bits hold. */
  function Stored(v: Value): Value {
    if v.Text? then Text(v.s[..StoredLength(v.s)]) else v
  }

  lemma StoredIsSame(v: Value)
    ensures Stored(v) == v <==> (v.Text? ==> |v.s| < 65536)
  {
    if v.Text? {
      assert |v.s| < 65536 ==> v.s[..|v.s|] == v.s;
      assert |v.s| >= 65536 ==> |v.s[..StoredLength(v.s)]| < |v.s|;
    }
  }

  /** s holds `part` at position `at`. */
  predicate Holds(s: seq<byte>, at: nat, part: seq<byte>) {
    at + |part| <= |s| && s[at..at + |part|] == part
  }

  lemma HoldsParts(s: seq<byte>, at: nat, a: seq<byte>, b: seq<byte>)
    requires Holds(s, at, a + b)
    ensures Holds(s, at, a) && Holds(s, at + |a|, b)
  {
    var part := s[at..at + |a| + |b|];
    assert s[at..at + |a|] == part[..|a|] == a;
    assert s[at + |a|..at + |a| + |b|] == part[|a|..] == b;
  }

  lemma PeekInt(s: seq<byte>, at: nat, n: nat, width: nat)
    requires n < Pow256(width) && Holds(s, at, ToBytes(n, width))
    ensures Peek(s, at, width) == Ok(n)
  {
    FromToBytes(n, width);
  }

  lemma Pow256Of2()
    ensures Pow256(2) == 65536
  {
    assert Pow256(1) == 256;
  }

  lemma DecodeVec3(x: nat, y: nat, z: nat, s: seq<byte>, at: nat)
    requires x < FLOAT_VALUES && y < FLOAT_VALUES && z < FLOAT_VALUES && Holds(s, at, Encode(Vec3(x, y, z)))
    ensures DecodeFloats(s, at, 3) == (Ok(Vec3(x, y, z)), at + 12)
  {
    HoldsParts(s, at, ToBytes(x, 4) + ToBytes(y, 4), ToBytes(z, 4));
    HoldsParts(s, at, ToBytes(x, 4), ToBytes(y, 4));
    PeekInt(s, at, x, 4);
    PeekInt(s, at + 4, y, 4);
    PeekInt(s, at + 8, z, 4);
  }

  lemma DecodeVec2(x: nat, y: nat, s: seq<byte>, at: nat)
    requires x < FLOAT_VALUES && y < FLOAT_VALUES && Holds(s, at, Encode(Vec2(x, y)))
    ensures DecodeFloats(s, at, 2) == (Ok(Vec2(x, y)), at + 8)
  {
    HoldsParts(s, at, ToBytes(x, 4), ToBytes(y, 4));
    PeekInt(s, at, x, 4);
    PeekInt(s, at + 4, y, 4);
  }

  lemma DecodeStored(t: seq<byte>, s: seq<byte>, at: nat)
    requires Holds(s, at, Encode(Text(t)))
    ensures DecodeText(s, at) == (Ok(Text(t[..StoredLength(t)])), at + |Encode(Text(t))|)
  {
    var length := StoredLength(t);
    HoldsParts(s, at, ToBytes(length, 2), t[..length]);
    Pow256Of2();
    PeekInt(s, at, length, 2);
  }

  /** Reading a value where it was written gives it back, and puts the cursor after it. */
  lemma RoundTrip(v: Value, s: seq<byte>, at: nat)
    requires InRange(v) && Holds(s, at, Encode(v))
    ensures Decode(KindOf(v), s, at) == (Ok(Stored(v)), at + |Encode(v)|)
  {
    match v
    case Int(width, n) => PeekInt(s, at, n, width);
    case Float(bits) => PeekInt(s, at, bits, 4);
    case Vec2(x, y) => DecodeVec2(x, y, s, at);
    case Vec3(x, y, z) => DecodeVec3(x, y, z, s, at);
    case Text(t) => DecodeStored(t, s, at);
  }

  function KindsOf(vs: seq<Value>): (r: seq<Kind>)
    ensures |r| == |vs|
  {
    if vs == [] then [] else [KindOf(vs[0])] + KindsOf(vs[1..])
  }

  function StoredAll(vs: seq<Value>): (r: seq<Value>)
    ensures |r| == |vs|
  {
    if vs == [] then [] else [Stored(vs[0])] + StoredAll(vs[1..])
  }

  predicate InRangeAll(vs: seq<Value>) {
    forall i :: 0 <= i < |vs| ==> InRange(vs[i])
  }

  predicate ShortTexts(vs: seq<Value>) {
    forall i :: 0 <= i < |vs| && vs[i].Text? ==> |vs[i].s| < 65536
  }

  lemma {:induction false} StoredAllIsSame(vs: seq<Value>)
    ensures StoredAll(vs) == vs <==> ShortTexts(vs)
  {
    if vs != [] {
      var r := StoredAll(vs);
      StoredAllIsSame(vs[1..]);
      StoredIsSame(vs[0]);
      assert r[1..] == StoredAll(vs[1..]) && r[0] == Stored(vs[0]);
      assert vs == [vs[0]] + vs[1..];
      assert ShortTexts(vs) ==> ShortTexts(vs[1..]);
      assert forall i :: 1 <= i < |vs| ==> vs[i] == vs[1..][i - 1];
    }
  }

  lemma DecodeAllOneMore(ks: seq<Kind>, s: seq<byte>, at: nat, v: Value, next: nat, vs: seq<Value>, end: nat)
    requires ks != [] && Decode(ks[0], s, at) == (Ok(v), next) && DecodeAll(ks[1..], s, next) == (Ok(vs), end)
    ensures DecodeAll(ks, s, at) == (Ok([v] + vs), end)
  {
  }

  lemma KindsOfRest(vs: seq<Value>)
    requires vs != []
    ensures KindsOf(vs)[0] == KindOf(vs[0]) && KindsOf(vs)[1..] == KindsOf(vs[1..])
  {
  }

  lemma HoldsFirst(s: seq<byte>, at: nat, parts: seq<seq<byte>>)
    requires parts != [] && Holds(s, at, Joined(parts))
    ensures Holds(s, at, parts[0]) && Holds(s, at + |parts[0]|, Joined(parts[1..]))
    ensures |Joined(parts)| == |parts[0]| + |Joined(parts[1..])|
  {
    HoldsParts(s, at, parts[0], Joined(parts[1..]));
  }

  lemma EncodingsOfRest(vs: seq<Value>)
    requires vs != []
    ensures Encodings(vs)[0] == Encode(vs[0]) && Encodings(vs)[1..] == Encodings(vs[1..])
  {
  }

  lemma FirstHolds(vs: seq<Value>, v: Value, rest: seq<Value>, s: seq<byte>, at: nat)
    requires vs != [] && v == vs[0] && rest == vs[1..] && Holds(s, at, EncodeAll(vs))
    ensures Holds(s, at, Encode(v)) && Holds(s, at + |Encode(v)|, EncodeAll(rest))
    ensures |EncodeAll(vs)| == |Encode(v)| + |EncodeAll(rest)|
  {
    EncodingsOfRest(vs);
    HoldsFirst(s, at, Encodings(vs));
  }

  lemma FirstComesBack(vs: seq<Value>, v: Value, rest: seq<Value>, s: seq<byte>, at: nat)
    requires vs != [] && v == vs[0] && rest == vs[1..] && InRangeAll(vs) && Holds(s, at, EncodeAll(vs))
    ensures Decode(KindOf(v), s, at) == (Ok(Stored(v)), at + |Encode(v)|)
    ensures Holds(s, at + |Encode(v)|, EncodeAll(rest)) && |EncodeAll(vs)| == |Encode(v)| + |EncodeAll(rest)|
  {
    FirstHolds(vs, v, rest, s, at);
    RoundTrip(v, s, at);
  }

  /** Any list of values, read in order from where it was written, comes back with the cursor after the last. */
  lemma {:induction false} RoundTripAll(vs: seq<Value>, s: seq<byte>, at: nat)
    requires InRangeAll(vs) && Holds(s, at, EncodeAll(vs))
    ensures DecodeAll(KindsOf(vs), s, at) == (Ok(StoredAll(vs)), at + |EncodeAll(vs)|)
    decreases |vs|
  {
    if vs != [] {
      var v, rest, next := vs[0], vs[1..], at + |Encode(vs[0])|;
      FirstComesBack(vs, v, rest, s, at);
      RoundTripAll(rest, s, next);
      KindsOfRest(vs);
      DecodeAllOneMore(KindsOf(vs), s, at, Stored(v), next, StoredAll(rest), at + |EncodeAll(vs)|);
    }
  }

  /** It comes back identical exactly when every string has fewer than 65536 characters. */
  lemma RoundTripIff(vs: seq<Value>)
    requires InRangeAll(vs)
    ensures DecodeAll(KindsOf(vs), EncodeAll(vs), 0) == (Ok(vs), |EncodeAll(vs)|) <==> ShortTexts(vs)
  {
    var s := EncodeAll(vs);
    assert Holds(s, 0, s);
    RoundTripAll(vs, s, 0);
    StoredAllIsSame(vs);
  }

  // ---------- Truncated packets ----------

  lemma CutPeek(s: seq<byte>, at: nat, width: nat, end: nat)
    requires end <= |s|
    ensures Peek(s[..end], at, width) == if at + width > end then ReadOutOfBounds else Peek(s, at, width)
  {
    if at + width <= end {
      assert s[..end][at..at + width] == s[at..at + width];
    }
  }

  /** A read sees only what is before its new cursor: cutting the buffer there changes nothing, cutting it
      earlier makes the read fail. */
  lemma CutDecode(k: Kind, s: seq<byte>, at: nat, end: nat)
    requires end <= |s| && Decode(k, s, at).0.Ok?
    ensures Decode(k, s[..end], at).0
         == if Decode(k, s, at).1 > end then ReadOutOfBounds else Decode(k, s, at).0
    ensures Decode(k, s, at).1 <= end ==> Decode(k, s[..end], at).1 == Decode(k, s, at).1
  {
    match k {
      case IntKind(width) => CutPeek(s, at, width, end);
      case FloatKind => CutFloats(s, at, end);
      case Vec2Kind => CutFloats(s, at, end);
      case Vec3Kind => CutFloats(s, at, end);
      case TextKind => CutText(s, at, end);
    }
  }

  lemma CutFloats(s: seq<byte>, at: nat, end: nat)
    requires end <= |s|
    ensures Peek(s[..end], at, 4) == if at + 4 > end then ReadOutOfBounds else Peek(s, at, 4)
    ensures Peek(s[..end], at + 4, 4) == if at + 8 > end then ReadOutOfBounds else Peek(s, at + 4, 4)
    ensures Peek(s[..end], at + 8, 4) == if at + 12 > end then ReadOutOfBounds else Peek(s, at + 8, 4)
  {
    CutPeek(s, at, 4, end);
    CutPeek(s, at + 4, 4, end);
    CutPeek(s, at + 8, 4, end);
  }

  lemma CutText(s: seq<byte>, at: nat, end: nat)
    requires end <= |s| && DecodeText(s, at).0.Ok?
    ensures DecodeText(s[..end], at).0
         == if DecodeText(s, at).1 > end then ReadOutOfBounds else DecodeText(s, at).0
    ensures DecodeText(s, at).1 <= end ==> DecodeText(s[..end], at).1 == DecodeText(s, at).1
  {
    CutPeek(s, at, 2, end);
    var next := DecodeText(s, at).1;
    if next <= end {
      assert s[..end][at + 2..next] == s[at + 2..next];
    }
  }

  lemma {:induction false} DecodeAllAdvances(ks: seq<Kind>, s: seq<byte>, at: nat)
    requires DecodeAll(ks, s, at).0.Ok?
    ensures DecodeAll(ks, s, at).1 >= at
    decreases |ks|
  {
    if ks != [] {
      DecodeAllAdvances(ks[1..], s, Decode(ks[0], s, at).1);
    }
  }

  /** Every proper prefix of a packet is refused: a list that decodes needs all its bytes. */
  lemma {:induction false} TruncatedIsRefused(ks: seq<Kind>, s: seq<byte>, at: nat, end: nat)
    requires at <= end <= |s| && DecodeAll(ks, s, at).0.Ok? && end < DecodeAll(ks, s, at).1
    ensures DecodeAll(ks, s[..end], at).0 == ReadOutOfBounds
    decreases |ks|
  {
    var next := Decode(ks[0], s, at).1;
    CutDecode(ks[0], s, at, end);
    if next <= end {
      TruncatedIsRefused(ks[1..], s, next, end);
    }
  }

  // ---------- Frames ----------

  /** What goes over the wire: the opcode, the length of the payload, and the payload. */
  function Frame(opcode: nat, vs: seq<Value>): seq<byte> {
    ToBytes(opcode, 2) + ToBytes(|EncodeAll(vs)|, 2) + EncodeAll(vs)
  }

  /** A receiver reads the opcode, the length of the payload, and every value. */
  lemma FrameRoundTrip(opcode: nat, vs: seq<Value>)
    requires opcode < 65536 && InRangeAll(vs) && ShortTexts(vs) && |EncodeAll(vs)| < 65536
    ensures DecodeAll([IntKind(2), IntKind(2)] + KindsOf(vs), Frame(opcode, vs), 0)
         == (Ok([Int(2, opcode), Int(2, |EncodeAll(vs)|)] + vs), |Frame(opcode, vs)|)
  {
    var length := Int(2, |EncodeAll(vs)|);
    var all := [Int(2, opcode)] + ([length] + vs);
    Pow256Of2();
    FrameIsEncoded(opcode, vs);
    assert all == [Int(2, opcode), length] + vs;
    RoundTripIff(all);
  }

  lemma FrameIsEncoded(opcode: nat, vs: seq<Value>)
    ensures var all := [Int(2, opcode)] + ([Int(2, |EncodeAll(vs)|)] + vs);
            EncodeAll(all) == Frame(opcode, vs) && KindsOf(all) == [IntKind(2), IntKind(2)] + KindsOf(vs)
  {
    var length := Int(2, |EncodeAll(vs)|);
    EncodeAllOneMore(length, vs);
    EncodeAllOneMore(Int(2, opcode), [length] + vs);
    Associative(ToBytes(opcode, 2), ToBytes(|EncodeAll(vs)|, 2), EncodeAll(vs));
  }

  lemma EncodeAllOneMore(v: Value, vs: seq<Value>)
    ensures EncodeAll([v] + vs) == Encode(v) + EncodeAll(vs) && KindsOf([v] + vs) == [KindOf(v)] + KindsOf(vs)
  {
    assert ([v] + vs)[1..] == vs;
    EncodingsOfRest([v] + vs);
  }

  lemma Associative(a: seq<byte>, b: seq<byte>, c: seq<byte>)
    ensures a + (b + c) == (a + b) + c
  {
  }

  lemma {:induction false} JoinedSum(a: seq<seq<byte>>, b: seq<seq<byte>>)
    ensures Joined(a + b) == Joined(a) + Joined(b)
  {
    if a == [] {
      assert a + b == b;
    } else {
      JoinedSum(a[1..], b);
      assert (a + b)[1..] == a[1..] + b;
      Associative(a[0], Joined(a[1..]), Joined(b));
    }
  }

  lemma EncodingsSum(vs: seq<Value>, us: seq<Value>)
    ensures Encodings(vs + us) == Encodings(vs) + Encodings(us)
  {
  }

  /** Writing one list after another is writing their concatenation. */
  lemma EncodeAllJoins(vs: seq<Value>, us: seq<Value>)
    ensures EncodeAll(vs + us) == EncodeAll(vs) + EncodeAll(us)
  {
    EncodingsSum(vs, us);
    JoinedSum(Encodings(vs), Encodings(us));
  }
}
