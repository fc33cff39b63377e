/**
 * The Brigadier argument-property serializer for a single byte: the value is the next
 * byte of the packet buffer, whatever the protocol version.
 */
module ByteArgument {
  import opened Wrappers
  import opened JavaUtf
  import opened Wire
  import opened Netty

  /** A protocol version, by its protocol number; this serializer never looks at it. */
  type ProtocolVersion = int

  /** The byte `writeByte` stores for a Java byte, and `readByte` turns back into it. */
  lemma {:induction false} SignedByteInverts(v: JByte)
    ensures SignedByte(v % 0x100) == v
  {
    if v < 0 {
      assert v % 0x100 == v + 0x100;
    }
  }

  /** `deserialize`: consumes exactly one byte and returns it. */
  method Deserialize(buf: ByteBuf, version: ProtocolVersion) returns (r: Result<JByte, Exception>)
    requires buf.Valid()
    modifies buf
    ensures buf.Valid() && buf.content == old(buf.content)
    ensures old(buf.Readable()) != [] ==>
              r == Success(SignedByte(old(buf.Readable())[0])) && buf.Readable() == old(buf.Readable())[1..]
    ensures old(buf.Readable()) == [] ==> r == Failure(EndOfBuffer) && buf.readerIndex == old(buf.readerIndex)
  {
    r := buf.ReadByte();
  }

  /** `serialize`: appends exactly one byte, the value's two's-complement bits. */
  method Serialize(value: JByte, buf: ByteBuf, version: ProtocolVersion)
    requires buf.Valid()
    modifies buf
    ensures buf.Valid() && buf.readerIndex == old(buf.readerIndex)
    ensures buf.content == old(buf.content) + [value % 0x100]
    ensures SignedByte(buf.content[|buf.content| - 1]) == value
  {
    buf.WriteByte(value);
    SignedByteInverts(value);
  }

  /**
   * Serializing into a buffer whose content has all been read, then deserializing from
   * it, gives back the original byte, under any two protocol versions.
   */
  method RoundTrip(value: JByte, buf: ByteBuf, written: ProtocolVersion, read: ProtocolVersion)
    returns (r: Result<JByte, Exception>)
    requires buf.Valid() && buf.Readable() == []
    modifies buf
    ensures r == Success(value)
    ensures buf.Valid() && buf.Readable() == []
  {
    Serialize(value, buf, written);
    r := Deserialize(buf, read);
  }
}
