/**
 * The field layout of BungeeCord plugin messages as Netty's `ByteBuf` and Velocity's
 * `ByteBufDataInput`/`ByteBufDataOutput` write and read it: strings with a 16-bit
 * big-endian length prefix and a modified-UTF-8 body, big-endian 32-bit ints and
 * 16-bit shorts, no padding.
 */
module Wire {
  import opened Wrappers
  import opened JavaUtf

  /** The exceptions that can escape a read, a write or a send in this layer. */
  datatype Exception =
    | EndOfBuffer      // a read past the writer index (IndexOutOfBoundsException)
    | MalformedUtf     // readUTF met a bad lead byte, a bad continuation or a cut sequence
    | Unrepresentable  // readUTF decoded a lone surrogate, which a Dafny string cannot hold
    | UtfTooLong       // writeUTF of a string whose encoding exceeds 65535 bytes
    | NotConnected     // the player has no current, connected backend server
    | MalformedJson    // the JSON component serializer rejected a MessageRaw text

  type JInt = x: int | -0x8000_0000 <= x < 0x8000_0000

  const MaxUtfLength := 0xFFFF

  /** One field of a plugin message body. */
  datatype Field = Utf(s: string) | Int(i: int) | Short(v: int)

  /** What a reader expects next. */
  datatype Kind = UtfKind | IntKind | ShortKind

  function KindOf(f: Field): Kind {
    match f
    case Utf(_) => UtfKind
    case Int(_) => IntKind
    case Short(_) => ShortKind
  }

  function KindsOf(fs: seq<Field>): (ks: seq<Kind>)
    ensures |ks| == |fs|
  {
    if fs == [] then [] else [KindOf(fs[0])] + KindsOf(fs[1..])
  }

  /** `writeUTF`: length prefix then body; fails when the body exceeds 65535 bytes. */
  function UtfBytes(s: string): Result<seq<Byte>, Exception>
  {
    var body := ModifiedUtf8(s);
    if |body| > MaxUtfLength then Failure(UtfTooLong)
    else Success([|body| / 0x100, |body| % 0x100] + body)
  }

  /** `writeInt`: the low 32 bits of the value, most significant byte first. */
  function IntBytes(v: int): (r: seq<Byte>)
    ensures |r| == 4
  {
    var x := v % 0x1_0000_0000;
    [x / 0x100 / 0x100 / 0x100, x / 0x100 / 0x100 % 0x100, x / 0x100 % 0x100, x % 0x100]
  }

  /** `writeShort`: the low 16 bits of the value, most significant byte first. */
  function ShortBytes(v: int): (r: seq<Byte>)
    ensures |r| == 2
  {
    var x := v % 0x1_0000;
    [x / 0x100, x % 0x100]
  }

  function FieldBytes(f: Field): Result<seq<Byte>, Exception>
  {
    match f
    case Utf(s) => UtfBytes(s)
    case Int(i) => Success(IntBytes(i))
    case Short(v) => Success(ShortBytes(v))
  }

  /** The bytes a sequence of writes produces, or the exception the first bad write throws. */
  function Encode(fs: seq<Field>): Result<seq<Byte>, Exception>
  {
    if fs == [] then Success([])
    else
      var head :- FieldBytes(fs[0]);
      var tail :- Encode(fs[1..]);
      Success(head + tail)
  }

  /** Appending one write to a sequence of writes, as a writer does step by step. */
  lemma {:induction false} EncodeSnoc(fs: seq<Field>, f: Field)
    ensures Encode(fs + [f]) ==
            match Encode(fs)
            case Failure(e) => Failure(e)
            case Success(bs) =>
              match FieldBytes(f)
              case Failure(e) => Failure(e)
              case Success(b) => Success(bs + b)
  {
    if fs == [] {
      assert [] + [f] == [f];
      assert [f][1..] == [];
      match FieldBytes(f) {
        case Failure(_) =>
        case Success(b) => assert [] + b == b + [];
      }
    } else {
      assert (fs + [f])[0] == fs[0];
      assert (fs + [f])[1..] == fs[1..] + [f];
      EncodeSnoc(fs[1..], f);
      match FieldBytes(fs[0]) {
        case Failure(_) =>
        case Success(h) =>
          match Encode(fs[1..]) {
            case Failure(_) =>
            case Success(t) =>
              match FieldBytes(f) {
                case Failure(_) =>
                case Success(b) => assert h + (t + b) == (h + t) + b;
              }
          }
      }
    }
  }

  /** Once a write throws, the writes after it never happen: the whole reply throws. */
  lemma {:induction false} EncodeFailsWithPrefix(fs: seq<Field>, later: seq<Field>)
    requires Encode(fs).Failure?
    ensures Encode(fs + later) == Encode(fs)
  {
    assert fs != [];
    assert (fs + later)[0] == fs[0];
    assert (fs + later)[1..] == fs[1..] + later;
    if FieldBytes(fs[0]).Success? {
      EncodeFailsWithPrefix(fs[1..], later);
    }
  }

  // ---- reading ----

  /** `readUTF`: the string and the bytes after it, or the exception it throws. */
  function ReadUtf(b: seq<Byte>): (r: Result<(string, seq<Byte>), Exception>)
    ensures r.Success? ==> |r.value.1| < |b| && r.value.1 == b[|b| - |r.value.1|..]
  {
    if |b| < 2 then Failure(EndOfBuffer)
    else
      var len := b[0] as int * 0x100 + b[1] as int;
      if |b| - 2 < len then Failure(EndOfBuffer)
      else
        match DecodeUnits(b[2..2 + len])
        case None => Failure(MalformedUtf)
        case Some(us) =>
          match FromUtf16(us)
          case None => Failure(Unrepresentable)
          case Some(s) => Success((s, b[2 + len..]))
  }

  /** `readInt`: a signed 32-bit big-endian value. */
  function ReadInt(b: seq<Byte>): (r: Result<(JInt, seq<Byte>), Exception>)
    ensures r.Success? ==> |b| >= 4 && r.value.1 == b[4..]
  {
    if |b| < 4 then Failure(EndOfBuffer)
    else
      var x := ((b[0] as int * 0x100 + b[1] as int) * 0x100 + b[2] as int) * 0x100 + b[3] as int;
      Success((if x < 0x8000_0000 then x else x - 0x1_0000_0000, b[4..]))
  }

  /** `readUnsignedShort`: a 16-bit big-endian value in 0..65535. */
  function ReadUnsignedShort(b: seq<Byte>): (r: Result<(int, seq<Byte>), Exception>)
    ensures r.Success? ==> |b| >= 2 && 0 <= r.value.0 < 0x1_0000 && r.value.1 == b[2..]
  {
    if |b| < 2 then Failure(EndOfBuffer)
    else Success((b[0] as int * 0x100 + b[1] as int, b[2..]))
  }

  function ReadField(k: Kind, b: seq<Byte>): (r: Result<(Field, seq<Byte>), Exception>)
    ensures r.Success? ==> |r.value.1| < |b|
  {
    match k
    case UtfKind =>
      var (s, rest) :- ReadUtf(b);
      Success((Utf(s), rest))
    case IntKind =>
      var (i, rest) :- ReadInt(b);
      Success((Int(i), rest))
    case ShortKind =>
      var (v, rest) :- ReadUnsignedShort(b);
      Success((Short(v), rest))
  }

  /** Reads the given kinds in order; returns the fields and the unread bytes. */
  function Decode(b: seq<Byte>, ks: seq<Kind>): Result<(seq<Field>, seq<Byte>), Exception>
  {
    if ks == [] then Success(([], b))
    else
      var (f, rest) :- ReadField(ks[0], b);
      var (fs, tail) :- Decode(rest, ks[1..]);
      Success(([f] + fs, tail))
  }

  /** A field that its reader gives back unchanged: an int in Java's int range, a port-sized short. */
  predicate RoundTrips(f: Field) {
    match f
    case Utf(_) => true
    case Int(i) => -0x8000_0000 <= i < 0x8000_0000
    case Short(v) => 0 <= v < 0x1_0000
  }

  /** `writeUTF` cannot throw for a string of at most 10922 characters (six bytes each at most). */
  lemma ShortUtf(s: string)
    requires 6 * |s| <= MaxUtfLength
    ensures UtfBytes(s).Success? && |UtfBytes(s).value| <= 2 + 6 * |s|
  {
    ModifiedUtf8Length(s);
  }

  lemma ReadUtfBytes(s: string, rest: seq<Byte>)
    requires UtfBytes(s).Success?
    ensures ReadUtf(UtfBytes(s).value + rest) == Success((s, rest))
  {
    var body := ModifiedUtf8(s);
    var b := UtfBytes(s).value + rest;
    assert b[0] as int * 0x100 + b[1] as int == |body|;
    assert b[2..2 + |body|] == body;
    assert b[2 + |body|..] == rest;
    ModifiedUtf8RoundTrip(s);
  }

  lemma ReadIntBytes(i: int, rest: seq<Byte>)
    requires -0x8000_0000 <= i < 0x8000_0000
    ensures ReadInt(IntBytes(i) + rest) == Success((i, rest))
  {
    var b := IntBytes(i) + rest;
    assert b[4..] == rest;
    var x := i % 0x1_0000_0000;
    var y := x / 0x100;
    var z := y / 0x100;
    var w := z / 0x100;
    assert x == y * 0x100 + x % 0x100;
    assert y == z * 0x100 + y % 0x100;
    assert z == w * 0x100 + z % 0x100;
    assert ((w * 0x100 + z % 0x100) * 0x100 + y % 0x100) * 0x100 + x % 0x100 == x;
    assert x < 0x8000_0000 ==> x == i;
    assert x >= 0x8000_0000 ==> x - 0x1_0000_0000 == i;
  }

  lemma ReadShortBytes(v: int, rest: seq<Byte>)
    requires 0 <= v < 0x1_0000
    ensures ReadUnsignedShort(ShortBytes(v) + rest) == Success((v, rest))
  {
    var b := ShortBytes(v) + rest;
    assert b[2..] == rest;
  }

  /** Reading a reply with the layout it was written with gives back every field. */
  lemma {:induction false} DecodeEncode(fs: seq<Field>, rest: seq<Byte>)
    requires forall i :: 0 <= i < |fs| ==> RoundTrips(fs[i])
    requires Encode(fs).Success?
    ensures Decode(Encode(fs).value + rest, KindsOf(fs)) == Success((fs, rest))
  {
    if fs != [] {
      var head := FieldBytes(fs[0]).value;
      var tail := Encode(fs[1..]).value;
      DecodeEncode(fs[1..], rest);
      assert Encode(fs).value + rest == head + (tail + rest);
      match fs[0] {
        case Utf(s) => ReadUtfBytes(s, tail + rest);
        case Int(i) => ReadIntBytes(i, tail + rest);
        case Short(v) => ReadShortBytes(v, tail + rest);
      }
      var ks := KindsOf(fs);
      assert ks[0] == KindOf(fs[0]) && ks[1..] == KindsOf(fs[1..]);
      assert ReadField(ks[0], head + (tail + rest)) == Success((fs[0], tail + rest));
      assert [fs[0]] + fs[1..] == fs;
    } else {
      assert Encode(fs).value + rest == rest;
    }
  }
}
