/**
 * Java's text encoding as it reaches the wire: a `String` is a sequence of UTF-16 code
 * units, and `DataOutput.writeUTF` / `DataInput.readUTF` carry those units in "modified
 * UTF-8" (every unit on its own, U+0000 on two bytes, supplementary characters as two
 * three-byte surrogates).
 */
module JavaUtf {
  import opened Wrappers

  type Byte = x: int | 0 <= x < 0x100
  type Unit = x: int | 0 <= x < 0x1_0000

  predicate IsHighSurrogate(u: Unit) { 0xD800 <= u < 0xDC00 }
  predicate IsLowSurrogate(u: Unit) { 0xDC00 <= u < 0xE000 }

  /** The UTF-16 code units of one character. */
  function CharUnits(c: char): (r: seq<Unit>)
    ensures 1 <= |r| <= 2
  {
    var v := c as int;
    if v < 0x1_0000 then [v]
    else [0xD800 + (v - 0x1_0000) / 0x400, 0xDC00 + (v - 0x1_0000) % 0x400]
  }

  /** The parts one after the other. */
  function Flatten<T>(parts: seq<seq<T>>): seq<T>
  {
    if parts == [] then [] else parts[0] + Flatten(parts[1..])
  }

  /** The UTF-16 code units of a string, as Java stores it: each character's units in turn. */
  function Utf16(s: string): seq<Unit>
  {
    Flatten(seq(|s|, i requires 0 <= i < |s| => CharUnits(s[i])))
  }

  lemma Utf16Cons(s: string)
    requires s != []
    ensures Utf16(s) == CharUnits(s[0]) + Utf16(s[1..])
  {
    var parts := seq(|s|, i requires 0 <= i < |s| => CharUnits(s[i]));
    assert parts[1..] == seq(|s[1..]|, i requires 0 <= i < |s[1..]| => CharUnits(s[1..][i]));
  }

  /** Pairs surrogates back into characters; a lone surrogate has no Dafny `char`. */
  function FromUtf16(us: seq<Unit>): Option<string>
    decreases |us|
  {
    if us == [] then Some("")
    else if !IsHighSurrogate(us[0]) && !IsLowSurrogate(us[0]) then
      match FromUtf16(us[1..])
      case Some(rest) => Some([us[0] as char] + rest)
      case None => None
    else if IsHighSurrogate(us[0]) && |us| >= 2 && IsLowSurrogate(us[1]) then
      var v: int := 0x1_0000 + (us[0] as int - 0xD800) * 0x400 + (us[1] as int - 0xDC00);
      match FromUtf16(us[2..])
      case Some(rest) => Some([v as char] + rest)
      case None => None
    else None
  }

  /** Decoding one character's units in front of decodable units decodes that character first. */
  lemma FromUtf16CharUnits(c: char, rest: seq<Unit>, t: string)
    requires FromUtf16(rest) == Some(t)
    ensures FromUtf16(CharUnits(c) + rest) == Some([c] + t)
  {
    var us := CharUnits(c) + rest;
    assert !(0xD800 <= c as int < 0xE000);
    if (c as int) < 0x1_0000 {
      assert us[1..] == rest;
      assert !IsHighSurrogate(us[0]) && !IsLowSurrogate(us[0]);
      assert (us[0] as char) == c;
    } else {
      assert us[2..] == rest;
      assert IsHighSurrogate(us[0]) && IsLowSurrogate(us[1]);
    }
  }

  lemma {:induction false} FromUtf16Utf16(s: string)
    ensures FromUtf16(Utf16(s)) == Some(s)
  {
    if s != [] {
      FromUtf16Utf16(s[1..]);
      Utf16Cons(s);
      FromUtf16CharUnits(s[0], Utf16(s[1..]), s[1..]);
      assert [s[0]] + s[1..] == s;
    }
  }

  /** DataOutputStream.writeUTF's encoding of one code unit. */
  function EncodeUnit(u: Unit): (r: seq<Byte>)
    ensures 1 <= |r| <= 3
  {
    if 1 <= u < 0x80 then [u]
    else if u < 0x800 then [0xC0 + u / 0x40, 0x80 + u % 0x40]
    else [0xE0 + u / 0x1000, 0x80 + (u / 0x40) % 0x40, 0x80 + u % 0x40]
  }

  /** The encodings of the units one after the other. */
  function EncodeUnits(us: seq<Unit>): seq<Byte>
  {
    Flatten(seq(|us|, i requires 0 <= i < |us| => EncodeUnit(us[i])))
  }

  lemma EncodeUnitsCons(us: seq<Unit>)
    requires us != []
    ensures EncodeUnits(us) == EncodeUnit(us[0]) + EncodeUnits(us[1..])
  {
    var parts := seq(|us|, i requires 0 <= i < |us| => EncodeUnit(us[i]));
    assert parts[1..] == seq(|us[1..]|, i requires 0 <= i < |us[1..]| => EncodeUnit(us[1..][i]));
  }

  /** The modified UTF-8 body that `writeUTF(s)` puts after the length prefix. */
  function ModifiedUtf8(s: string): seq<Byte>
  {
    EncodeUnits(Utf16(s))
  }

  predicate IsContinuation(b: Byte) { 0x80 <= b < 0xC0 }

  /**
   * DataInputStream.readUTF's decoding loop over the body bytes: the high nibble of the
   * lead byte chooses one, two or three bytes; a continuation byte must be 10xxxxxx; a
   * truncated sequence or lead byte 10xx or 1111 is malformed.
   */
  function DecodeUnits(bs: seq<Byte>): Option<seq<Unit>>
    decreases |bs|
  {
    if bs == [] then Some([])
    else
      var c := bs[0];
      if c < 0x80 then
        match DecodeUnits(bs[1..])
        case Some(rest) => Some([c] + rest)
        case None => None
      else if 0xC0 <= c < 0xE0 then
        if |bs| < 2 || !IsContinuation(bs[1]) then None
        else
          match DecodeUnits(bs[2..])
          case Some(rest) => Some([(c - 0xC0) * 0x40 + (bs[1] - 0x80)] + rest)
          case None => None
      else if 0xE0 <= c < 0xF0 then
        if |bs| < 3 || !IsContinuation(bs[1]) || !IsContinuation(bs[2]) then None
        else
          match DecodeUnits(bs[3..])
          case Some(rest) => Some([(c - 0xE0) * 0x1000 + (bs[1] - 0x80) * 0x40 + (bs[2] - 0x80)] + rest)
          case None => None
      else None
  }

  lemma DecodeEncodeUnit(u: Unit, rest: seq<Byte>)
    ensures DecodeUnits(EncodeUnit(u) + rest) ==
            match DecodeUnits(rest)
            case Some(us) => Some([u] + us)
            case None => None
  {
    var bs := EncodeUnit(u) + rest;
    assert bs[|EncodeUnit(u)|..] == rest;
  }

  lemma {:induction false} DecodeEncodeUnits(us: seq<Unit>)
    ensures DecodeUnits(EncodeUnits(us)) == Some(us)
  {
    if us != [] {
      DecodeEncodeUnits(us[1..]);
      EncodeUnitsCons(us);
      DecodeEncodeUnit(us[0], EncodeUnits(us[1..]));
      assert [us[0]] + us[1..] == us;
    }
  }

  /** Reading back what writeUTF wrote gives the original string. */
  lemma ModifiedUtf8RoundTrip(s: string)
    ensures match DecodeUnits(ModifiedUtf8(s))
            case Some(us) => FromUtf16(us) == Some(s)
            case None => false
  {
    DecodeEncodeUnits(Utf16(s));
    FromUtf16Utf16(s);
  }

  /** A string of non-NUL ASCII characters costs exactly one byte per character. */
  lemma {:induction false} AsciiLength(s: string)
    requires forall i :: 0 <= i < |s| ==> 0 < s[i] as int < 0x80
    ensures |ModifiedUtf8(s)| == |s|
    ensures ModifiedUtf8(s) == seq(|s|, i requires 0 <= i < |s| => s[i] as int)
  {
    if s != [] {
      AsciiLength(s[1..]);
      Utf16Cons(s);
      EncodeUnitsCons(Utf16(s));
      assert Utf16(s) == [s[0] as int] + Utf16(s[1..]);
      assert EncodeUnits(Utf16(s)) == [s[0] as int] + EncodeUnits(Utf16(s[1..]));
    }
  }

  /** Every character costs between one byte and six (a surrogate pair, three bytes per unit). */
  lemma {:induction false} ModifiedUtf8Length(s: string)
    ensures |s| <= |ModifiedUtf8(s)| <= 6 * |s|
  {
    if s != [] {
      ModifiedUtf8Length(s[1..]);
      Utf16Cons(s);
      var units := CharUnits(s[0]);
      UnitsLength(units, Utf16(s[1..]));
    }
  }

  /** Encoding a concatenation of units, with the bounds on the first part's cost. */
  lemma {:induction false} UnitsLength(us: seq<Unit>, more: seq<Unit>)
    ensures EncodeUnits(us + more) == EncodeUnits(us) + EncodeUnits(more)
    ensures |us| <= |EncodeUnits(us)| <= 3 * |us|
  {
    if us == [] {
      assert us + more == more;
    } else {
      UnitsLength(us[1..], more);
      EncodeUnitsCons(us);
      EncodeUnitsCons(us + more);
      assert (us + more)[1..] == us[1..] + more;
    }
  }
}
