/**
 * Netty's `ByteBuf` as the proxy uses it: readable content between a reader index and
 * the writer index, big-endian writes appended at the writer index, and the
 * `ByteBufDataInput.readUTF` / `ByteBufDataOutput.writeUTF` adapters over it.
 */
module Netty {
  import opened Wrappers
  import opened JavaUtf
  import opened Wire

  /** A Java `byte`. */
  type JByte = x: int | -0x80 <= x < 0x80

  /** The Java `byte` a buffer byte reads back as. */
  function SignedByte(b: Byte): (r: JByte)
    ensures r % 0x100 == b
  {
    if b < 0x80 then b else b - 0x100
  }

  class ByteBuf {
    /** The bytes written so far: index 0 up to the writer index. */
    var content: seq<Byte>
    var readerIndex: nat

    ghost predicate Valid()
      reads this
    {
      readerIndex <= |content|
    }

    /** The bytes between the reader index and the writer index. */
    function Readable(): seq<Byte>
      reads this
      requires Valid()
    {
      content[readerIndex..]
    }

    /** `Unpooled.buffer()`. */
    constructor Empty()
      ensures Valid() && content == [] && readerIndex == 0
    {
      content := [];
      readerIndex := 0;
    }

    /** A buffer holding a received payload, nothing read yet. */
    constructor Wrap(data: seq<Byte>)
      ensures Valid() && content == data && readerIndex == 0
    {
      content := data;
      readerIndex := 0;
    }

    method IsReadable() returns (b: bool)
      requires Valid()
      ensures b <==> Readable() != []
    {
      b := readerIndex < |content|;
    }

    /** `readByte`: the next byte as a signed Java byte; throws when nothing is readable. */
    method ReadByte() returns (r: Result<JByte, Exception>)
      requires Valid()
      modifies this
      ensures Valid() && content == old(content)
      ensures old(readerIndex) < |content| ==>
                r == Success(SignedByte(content[old(readerIndex)])) && readerIndex == old(readerIndex) + 1
      ensures old(readerIndex) == |content| ==> r == Failure(EndOfBuffer) && readerIndex == old(readerIndex)
    {
      if readerIndex < |content| {
        r := Success(SignedByte(content[readerIndex]));
        readerIndex := readerIndex + 1;
      } else {
        r := Failure(EndOfBuffer);
      }
    }

    /** `writeByte`: appends the low 8 bits of the value. */
    method WriteByte(v: int)
      requires Valid()
      modifies this
      ensures Valid() && readerIndex == old(readerIndex)
      ensures content == old(content) + [v % 0x100]
    {
      content := content + [v % 0x100];
    }

    /** `writeShort`: appends the low 16 bits of the value, big-endian. */
    method WriteShort(v: int)
      requires Valid()
      modifies this
      ensures Valid() && readerIndex == old(readerIndex)
      ensures content == old(content) + ShortBytes(v)
    {
      content := content + ShortBytes(v);
    }

    /** `writeInt`: appends the low 32 bits of the value, big-endian. */
    method WriteInt(v: int)
      requires Valid()
      modifies this
      ensures Valid() && readerIndex == old(readerIndex)
      ensures content == old(content) + IntBytes(v)
    {
      content := content + IntBytes(v);
    }

    /** `ByteBufDataOutput.writeUTF`: appends nothing and throws when the string is too long. */
    method WriteUtf(s: string) returns (ok: bool)
      requires Valid()
      modifies this
      ensures Valid() && readerIndex == old(readerIndex)
      ensures ok <==> |ModifiedUtf8(s)| <= MaxUtfLength
      ensures ok ==> UtfBytes(s).Success? && content == old(content) + UtfBytes(s).value
      ensures !ok ==> UtfBytes(s) == Failure(UtfTooLong) && content == old(content)
    {
      match UtfBytes(s) {
        case Success(b) =>
          content := content + b;
          ok := true;
        case Failure(_) =>
          ok := false;
      }
    }

    /** `ByteBufDataInput.readUTF`: the next string, the reader index moved past it. */
    method ReadUtf() returns (r: Result<string, Exception>)
      requires Valid()
      modifies this
      ensures Valid() && content == old(content)
      ensures match Wire.ReadUtf(old(Readable()))
              case Success((s, rest)) => r == Success(s) && Readable() == rest
              case Failure(e) => r == Failure(e) && readerIndex == old(readerIndex)
    {
      var readable := content[readerIndex..];
      match Wire.ReadUtf(readable) {
        case Success((s, rest)) =>
          readerIndex := |content| - |rest|;
          r := Success(s);
        case Failure(e) =>
          r := Failure(e);
      }
    }

    /** `unwrap().copy()` after reads: a copy of the bytes not yet read. */
    method CopyReadable() returns (c: seq<Byte>)
      requires Valid()
      ensures c == Readable()
    {
      c := content[readerIndex..];
    }
  }
}
