# Velocity proxy: BungeeCord responder, channel registrar and small protocol pieces

A Dafny model of parts of the Velocity Minecraft proxy, with their properties proved.

- **BungeeCord compatibility responder** (`BungeeCordMessageResponder`). A backend server sends
  the proxy plugin messages on `bungeecord:main` or `BungeeCord`. Each message names a
  sub-command in a length-prefixed string. The proxy looks players and servers up and answers
  with a reply of UTF strings and big-endian ints/shorts, or forwards the remaining bytes to
  other servers. The model has three layers:
  - `Wire` and `JavaUtf`: `DataOutput.writeUTF`/`readUTF` (UTF-16, modified UTF-8,
    16-bit length prefix), `writeInt` and `writeShort`, with their round trips.
  - `BungeeCord`: one pure function per sub-command. It maps a directory snapshot
    (`Directory.Proxy`) and the payload to the list of effects, or to the exception thrown.
  - `BungeeCordResponder.Responder`: a class whose `process*` methods read from and write
    into mutable `Netty.ByteBuf`s step by step and append effects to `sent`. Each one is
    proved to do exactly what the pure function says.
  `BungeeCordProperties` proves what the replies mean: what is sent, on which channel, how
  it decodes, what a lookup miss does, and which servers a forward reaches.
- **Channel registrar** (`Channels`): a set of modern/legacy channel ids with
  `Register`/`Unregister` and its two string views. The three registrar tests are replayed
  as methods whose postconditions are the asserted sets.
- **Brigadier byte argument** (`ByteArgument`): one signed byte read from or written to a buffer.
- **Resource-pack info and its builder** (`ResourcePack`): classes over nullable byte arrays.
- **Command execute event** (`CommandEvent`): the `CommandResult` decision table and the
  event's result field.
- **Kicked-from-server event** (`KickEvent`): the three result variants and the event.
- **Status session handler** (`StatusSession`): the `pingReceived` state machine over
  legacy pings, status requests, status pings and unknown packets.

Java exceptions are `Failure` values:
- `Wire.Exception` covers a short buffer, malformed UTF, an over-long `writeUTF`, a
  missing backend connection, and MessageRaw text the JSON serializer rejects.
- `Lang.Thrown` covers `NullPointerException` from `checkNotNull`,
  `IllegalArgumentException` from `checkArgument`, and `QuietRuntimeException`.

A Java null is `Option.None`, or `null` for arrays. Effects the proxy carries out
(plugin-message writes, connect requests, chat, disconnects, closes) are appended to a log.

## Model

| member | source | states |
|---|---|---|
| BungeeCordProperties.ProcessGating | proxy/src/main/java/com/velocitypowered/proxy/connection/backend/BungeeCordMessageResponder.java:342-349 | `process` returns false with no effect exactly when the feature flag is off or the channel is neither `bungeecord:main` nor `BungeeCord` |
| BungeeCordProperties.ProcessDispatches | proxy/src/main/java/com/velocitypowered/proxy/connection/backend/BungeeCordMessageResponder.java:351-408 | a claimed message is dispatched on its leading UTF sub-command and returns true with that sub-command's effects; an unknown sub-command returns true with no effect |
| BungeeCordProperties.ChannelByVersion | proxy/src/main/java/com/velocitypowered/proxy/connection/backend/BungeeCordMessageResponder.java:324-327 | the reply channel is `bungeecord:main` exactly for protocol versions at or above 1.13 (393) and `BungeeCord` exactly below |
| BungeeCordProperties.EncodeSucceeds | proxy/src/main/java/com/velocitypowered/proxy/connection/backend/BungeeCordMessageResponder.java:96-111 | a reply whose every field can be written is written in full, at least one byte per field |
| BungeeCordProperties.ReplyReadBack | proxy/src/main/java/com/velocitypowered/proxy/connection/backend/BungeeCordMessageResponder.java:329-340 | a reply is one plugin-message write on the player's current backend connection, on the channel for that connection's version, and its bytes read back as exactly the fields written |
| BungeeCordProperties.ReplyThrows | proxy/src/main/java/com/velocitypowered/proxy/connection/backend/BungeeCordMessageResponder.java:96-111 | a reply with a field `writeUTF` rejects throws that exception and sends nothing |
| BungeeCordProperties.ReplyNeedsConnection | proxy/src/main/java/com/velocitypowered/proxy/connection/backend/BungeeCordMessageResponder.java:335-337 | replying for a player with no connected backend throws (`ensureAndGetCurrentServer`/`ensureConnected`) |
| BungeeCordProperties.PlayerCountReplies | proxy/src/main/java/com/velocitypowered/proxy/connection/backend/BungeeCordMessageResponder.java:113-136 | `ALL` replies `PlayerCount`, `ALL`, the online count; a known server replies its canonical name and player count; an unknown server sends nothing |
| BungeeCordProperties.PlayerListReplies | proxy/src/main/java/com/velocitypowered/proxy/connection/backend/BungeeCordMessageResponder.java:138-170 | `ALL` and a known server reply the usernames joined with ", "; an over-long joined list throws; an unknown server sends nothing |
| BungeeCordProperties.GetServersReplies | proxy/src/main/java/com/velocitypowered/proxy/connection/backend/BungeeCordMessageResponder.java:172-184 | `GetServers` replies all registered server names joined with ", " |
| BungeeCordProperties.SeparatedSnoc | proxy/src/main/java/com/velocitypowered/proxy/connection/backend/BungeeCordMessageResponder.java:147-151 | adding a part to the joiner appends ", " and the part |
| BungeeCordProperties.JoinSeparates | proxy/src/main/java/com/velocitypowered/proxy/connection/backend/BungeeCordMessageResponder.java:147-151 | the joiner yields "" for no parts, else the first part followed by ", " before each later one |
| BungeeCordProperties.IpReplies | proxy/src/main/java/com/velocitypowered/proxy/connection/backend/BungeeCordMessageResponder.java:96-111 | `IP` replies the host string and the port as a 32-bit int; a Unix socket gives `unix://`+path and port 0 |
| BungeeCordProperties.IpOtherReplies | proxy/src/main/java/com/velocitypowered/proxy/connection/backend/BungeeCordMessageResponder.java:241-260 | `IPOther` for a known player replies name, host and port as a 32-bit int (`unix://`+path, 0 for a Unix socket) |
| BungeeCordProperties.ServerIpReplies | proxy/src/main/java/com/velocitypowered/proxy/connection/backend/BungeeCordMessageResponder.java:262-281 | `ServerIP` for a known server replies name, host and port as a 16-bit short (`unix://`+path, 0 for a Unix socket) |
| BungeeCordProperties.GetServerReplies | proxy/src/main/java/com/velocitypowered/proxy/connection/backend/BungeeCordMessageResponder.java:208-216 | `GetServer` replies the current server's name, and throws when the player has no current server |
| BungeeCordProperties.UuidReplies | proxy/src/main/java/com/velocitypowered/proxy/connection/backend/BungeeCordMessageResponder.java:218-226 | `UUID` replies the player's own undashed UUID |
| BungeeCordProperties.UuidOtherReplies | proxy/src/main/java/com/velocitypowered/proxy/connection/backend/BungeeCordMessageResponder.java:228-239 | `UUIDOther` for a known player replies its canonical name and undashed UUID |
| BungeeCordProperties.ConnectRequests | proxy/src/main/java/com/velocitypowered/proxy/connection/backend/BungeeCordMessageResponder.java:79-83 | `Connect` requests a connection of the sending player to a known server, and does nothing for an unknown one |
| BungeeCordProperties.MessageRoutes | proxy/src/main/java/com/velocitypowered/proxy/connection/backend/BungeeCordMessageResponder.java:194-206 | `ALL` broadcasts even when a player is called `ALL`; a known player gets the text under the canonical name; an unknown target gets nothing; MessageRaw text that is not component JSON throws for every target |
| BungeeCordProperties.SecondFieldReadOrder | proxy/src/main/java/com/velocitypowered/proxy/connection/backend/BungeeCordMessageResponder.java:196-197 | with a malformed second field, Message throws for every target while KickPlayer throws exactly when the player is known |
| BungeeCordProperties.UnknownPlayerIsNoOp | proxy/src/main/java/com/velocitypowered/proxy/connection/backend/BungeeCordMessageResponder.java:228-239 | `UUIDOther`, `IPOther`, `KickPlayer` and `ForwardToPlayer` do nothing for an unknown player |
| BungeeCordProperties.ConnectOtherNeedsBoth | proxy/src/main/java/com/velocitypowered/proxy/connection/backend/BungeeCordMessageResponder.java:85-94 | `ConnectOther` requests a connection exactly when both the player and the server exist |
| BungeeCordProperties.KickReadsReasonOnlyWhenFound | proxy/src/main/java/com/velocitypowered/proxy/connection/backend/BungeeCordMessageResponder.java:283-288 | `KickPlayer` reads the reason only for a known player, then disconnects that player with it |
| BungeeCordProperties.ForwardToServersTargets | proxy/src/main/java/com/velocitypowered/proxy/connection/backend/BungeeCordMessageResponder.java:303-313 | an `ALL`/`ONLINE` forward reaches exactly the registered servers whose info differs from the current one, with the legacy channel id and the remaining bytes |
| BungeeCordProperties.ForwardWithoutCurrent | proxy/src/main/java/com/velocitypowered/proxy/connection/backend/BungeeCordMessageResponder.java:301-310 | with no current server, every registered server receives the forward, in order |
| BungeeCordProperties.ForwardTargets | proxy/src/main/java/com/velocitypowered/proxy/connection/backend/BungeeCordMessageResponder.java:298-322 | `Forward` goes to all other servers for `ALL`/`ONLINE`, to the named server alone, or nowhere for an unknown name |
| BungeeCordProperties.ForwardToPlayerSendsRest | proxy/src/main/java/com/velocitypowered/proxy/connection/backend/BungeeCordMessageResponder.java:290-296 | `ForwardToPlayer` writes the bytes after the name to the found player's backend on that connection's channel |
| BungeeCordResponder.Responder.Process | proxy/src/main/java/com/velocitypowered/proxy/connection/backend/BungeeCordMessageResponder.java:342-408 | the imperative `process` returns and logs exactly what `BungeeCord.Process` specifies, and logs nothing when it throws |
| BungeeCordResponder.Responder.SendServerResponse | proxy/src/main/java/com/velocitypowered/proxy/connection/backend/BungeeCordMessageResponder.java:334-340 | writes the buffer's readable bytes on the target's backend connection, or throws with nothing sent |
| BungeeCordResponder.Responder.SendReply | proxy/src/main/java/com/velocitypowered/proxy/connection/backend/BungeeCordMessageResponder.java:329-332 | sends the fields written so far as one reply |
| BungeeCordResponder.Responder.ProcessConnect | proxy/src/main/java/com/velocitypowered/proxy/connection/backend/BungeeCordMessageResponder.java:79-83 | reads a server name and requests a connection to it when it exists |
| BungeeCordResponder.Responder.ProcessConnectOther | proxy/src/main/java/com/velocitypowered/proxy/connection/backend/BungeeCordMessageResponder.java:85-94 | agrees with `BungeeCord.ConnectOther` |
| BungeeCordResponder.Responder.ProcessIp | proxy/src/main/java/com/velocitypowered/proxy/connection/backend/BungeeCordMessageResponder.java:96-111 | writes `IP`, host and int port into a fresh buffer and sends it |
| BungeeCordResponder.Responder.WritePlayerCount | proxy/src/main/java/com/velocitypowered/proxy/connection/backend/BungeeCordMessageResponder.java:117-129 | writes the PlayerCount fields in order, or reports the `writeUTF` failure |
| BungeeCordResponder.Responder.ProcessPlayerCount | proxy/src/main/java/com/velocitypowered/proxy/connection/backend/BungeeCordMessageResponder.java:113-136 | sends the buffer only if something was written |
| BungeeCordResponder.Responder.WritePlayerList | proxy/src/main/java/com/velocitypowered/proxy/connection/backend/BungeeCordMessageResponder.java:142-163 | writes the PlayerList fields in order, joining usernames in a loop |
| BungeeCordResponder.Responder.ProcessPlayerList | proxy/src/main/java/com/velocitypowered/proxy/connection/backend/BungeeCordMessageResponder.java:138-170 | sends the buffer only if something was written |
| BungeeCordResponder.Responder.ProcessGetServers | proxy/src/main/java/com/velocitypowered/proxy/connection/backend/BungeeCordMessageResponder.java:172-184 | joins the server names in a loop and replies them |
| BungeeCordResponder.Responder.ProcessMessage | proxy/src/main/java/com/velocitypowered/proxy/connection/backend/BungeeCordMessageResponder.java:186-206 | reads target and text, deserializes the text (MessageRaw text that is not component JSON throws), then broadcasts for `ALL`, messages a known player, or does nothing |
| BungeeCordResponder.Responder.ProcessGetServer | proxy/src/main/java/com/velocitypowered/proxy/connection/backend/BungeeCordMessageResponder.java:208-216 | replies the current server's name |
| BungeeCordResponder.Responder.ProcessUuid | proxy/src/main/java/com/velocitypowered/proxy/connection/backend/BungeeCordMessageResponder.java:218-226 | replies the player's undashed UUID |
| BungeeCordResponder.Responder.ProcessUuidOther | proxy/src/main/java/com/velocitypowered/proxy/connection/backend/BungeeCordMessageResponder.java:228-239 | replies name and undashed UUID of a known player |
| BungeeCordResponder.Responder.ProcessIpOther | proxy/src/main/java/com/velocitypowered/proxy/connection/backend/BungeeCordMessageResponder.java:241-260 | agrees with `BungeeCord.IpOther` |
| BungeeCordResponder.Responder.ProcessServerIp | proxy/src/main/java/com/velocitypowered/proxy/connection/backend/BungeeCordMessageResponder.java:262-281 | agrees with `BungeeCord.ServerIp` |
| BungeeCordResponder.Responder.ProcessKick | proxy/src/main/java/com/velocitypowered/proxy/connection/backend/BungeeCordMessageResponder.java:283-288 | agrees with `BungeeCord.KickPlayer` |
| BungeeCordResponder.Responder.ProcessForwardToPlayer | proxy/src/main/java/com/velocitypowered/proxy/connection/backend/BungeeCordMessageResponder.java:290-296 | agrees with `BungeeCord.ForwardToPlayer` |
| BungeeCordResponder.Responder.ProcessForwardToServer | proxy/src/main/java/com/velocitypowered/proxy/connection/backend/BungeeCordMessageResponder.java:298-322 | its loop over the registered servers sends exactly `BungeeCord.Forward`'s messages, in order |
| BungeeCordResponder.JoinUsernames | proxy/src/main/java/com/velocitypowered/proxy/connection/backend/BungeeCordMessageResponder.java:147-151 | the loop over players builds the same string as the ", " joiner |
| BungeeCordResponder.JoinServerNames | proxy/src/main/java/com/velocitypowered/proxy/connection/backend/BungeeCordMessageResponder.java:173-176 | the loop over servers builds the same string as the ", " joiner |
| BungeeCordResponder.PutUtf | proxy/src/main/java/com/velocitypowered/proxy/connection/backend/BungeeCordMessageResponder.java:99 | `writeUTF` appends the next field's bytes, or the whole reply throws `UtfTooLong` |
| BungeeCordResponder.PutInt | proxy/src/main/java/com/velocitypowered/proxy/connection/backend/BungeeCordMessageResponder.java:105 | `writeInt` appends the next field's four bytes |
| BungeeCordResponder.PutShort | proxy/src/main/java/com/velocitypowered/proxy/connection/backend/BungeeCordMessageResponder.java:273 | `writeShort` appends the next field's two bytes |
| BungeeCordResponder.PutAddress | proxy/src/main/java/com/velocitypowered/proxy/connection/backend/BungeeCordMessageResponder.java:248-256 | writes host and port of an Inet address, or `unix://`+path and 0 |
| Wire.DecodeEncode | proxy/src/main/java/com/velocitypowered/proxy/connection/backend/BungeeCordMessageResponder.java:351-352 | fields written by `writeUTF`/`writeInt`/`writeShort` read back as the same fields, leaving what follows |
| Wire.ReadUtfBytes | proxy/src/main/java/com/velocitypowered/proxy/connection/backend/BungeeCordMessageResponder.java:352 | `readUTF` after `writeUTF` returns the string and the remaining bytes |
| Wire.ReadIntBytes | proxy/src/main/java/com/velocitypowered/proxy/connection/backend/BungeeCordMessageResponder.java:105 | reading an int back returns the 32-bit value written |
| Wire.ReadShortBytes | proxy/src/main/java/com/velocitypowered/proxy/connection/backend/BungeeCordMessageResponder.java:273 | reading an unsigned short back returns the 16-bit value written |
| Wire.EncodeFailsWithPrefix | proxy/src/main/java/com/velocitypowered/proxy/connection/backend/BungeeCordMessageResponder.java:96-111 | once a write has thrown, later writes do not matter |
| Wire.ShortUtf | proxy/src/main/java/com/velocitypowered/proxy/connection/backend/BungeeCordMessageResponder.java:99 | a string of at most 10922 characters always fits `writeUTF` |
| JavaUtf.FromUtf16Utf16 | proxy/src/main/java/com/velocitypowered/proxy/connection/backend/BungeeCordMessageResponder.java:99 | a Java string's UTF-16 units pair back into the same characters |
| JavaUtf.DecodeEncodeUnits | proxy/src/main/java/com/velocitypowered/proxy/connection/backend/BungeeCordMessageResponder.java:352 | the modified UTF-8 decoder inverts the encoder on any UTF-16 units |
| JavaUtf.ModifiedUtf8RoundTrip | proxy/src/main/java/com/velocitypowered/proxy/connection/backend/BungeeCordMessageResponder.java:99 | decoding a string's modified UTF-8 yields the string |
| JavaUtf.AsciiLength | proxy/src/main/java/com/velocitypowered/proxy/connection/backend/BungeeCordMessageResponder.java:119 | an ASCII tag such as `PlayerCount` encodes as its own characters, one byte each |
| JavaUtf.ModifiedUtf8Length | proxy/src/main/java/com/velocitypowered/proxy/connection/backend/BungeeCordMessageResponder.java:99 | a string's modified UTF-8 takes between one and six bytes per character |
| Netty.ByteBuf.ReadUtf | proxy/src/main/java/com/velocitypowered/proxy/connection/backend/BungeeCordMessageResponder.java:352 | `readUTF` on the buffer returns what `Wire.ReadUtf` decodes and advances past it, or throws and does not move |
| Netty.ByteBuf.WriteUtf | proxy/src/main/java/com/velocitypowered/proxy/connection/backend/BungeeCordMessageResponder.java:99 | `writeUTF` appends the length-prefixed encoding or throws when it exceeds 65535 bytes |
| Netty.ByteBuf.CopyReadable | proxy/src/main/java/com/velocitypowered/proxy/connection/backend/BungeeCordMessageResponder.java:293 | `unwrap().copy()` is the readable bytes |
| Channels.ToLowerCase | proxy/src/test/java/com/velocitypowered/proxy/util/VelocityChannelRegistrarTest.java:39 | lowercasing keeps the length and lowercases ASCII letters |
| Channels.ChannelRegistrar.Register | proxy/src/test/java/com/velocitypowered/proxy/util/VelocityChannelRegistrarTest.java:44 | adds the given identifiers to the set |
| Channels.ChannelRegistrar.Unregister | proxy/src/test/java/com/velocitypowered/proxy/util/VelocityChannelRegistrarTest.java:69 | removes the given identifiers from the set |
| Channels.ViewMembership | proxy/src/test/java/com/velocitypowered/proxy/util/VelocityChannelRegistrarTest.java:39-62 | the modern view holds the modern forms (`legacy:`+lowercase, or `bungeecord:main` for `BungeeCord`); the legacy view holds the ids verbatim |
| Channels.ProjectionShapes | proxy/src/test/java/com/velocitypowered/proxy/util/VelocityChannelRegistrarTest.java:39-51 | modern ids project verbatim; other legacy names become `legacy:` followed by no upper-case letter |
| Channels.UnregisterContribution | proxy/src/test/java/com/velocitypowered/proxy/util/VelocityChannelRegistrarTest.java:65-73 | unregistering removes a view entry exactly when no remaining identifier contributes it |
| Channels.RegisterUnregisterRestores | proxy/src/test/java/com/velocitypowered/proxy/util/VelocityChannelRegistrarTest.java:65-73 | registering then unregistering a new id leaves both views as they were |
| Channels.ViewSizes | proxy/src/test/java/com/velocitypowered/proxy/util/VelocityChannelRegistrarTest.java:48-62 | each view is no larger than the set of ids |
| Channels.LowerVelocityTest | proxy/src/test/java/com/velocitypowered/proxy/util/VelocityChannelRegistrarTest.java:39 | `VelocityTest` lowercases to `velocitytest` |
| Channels.TestLegacyModernForm | proxy/src/test/java/com/velocitypowered/proxy/util/VelocityChannelRegistrarTest.java:39 | legacy `VelocityTest` projects to `legacy:velocitytest` |
| Channels.SpecialIds | proxy/src/test/java/com/velocitypowered/proxy/util/VelocityChannelRegistrarTest.java:34-37 | modern `bungeecord:main` and legacy `BungeeCord` share one modern form |
| Channels.RegisterScenario | proxy/src/test/java/com/velocitypowered/proxy/util/VelocityChannelRegistrarTest.java:41-52 | after registering `velocity:test` and `VelocityTest` the views are the asserted sets |
| Channels.RegisterSpecialScenario | proxy/src/test/java/com/velocitypowered/proxy/util/VelocityChannelRegistrarTest.java:54-63 | registering `BungeeCord` and `bungeecord:main` gives a one-element modern view and both ids in the legacy view |
| Channels.UnregisterScenario | proxy/src/test/java/com/velocitypowered/proxy/util/VelocityChannelRegistrarTest.java:65-73 | unregistering `VelocityTest` leaves `velocity:test` alone in both views |
| ByteArgument.Deserialize | proxy/src/main/java/com/velocitypowered/proxy/network/protocol/packet/brigadier/ByteArgumentPropertySerializer.java:31-34 | consumes exactly one byte and returns it as a signed byte, whatever the protocol version; an empty buffer throws |
| ByteArgument.Serialize | proxy/src/main/java/com/velocitypowered/proxy/network/protocol/packet/brigadier/ByteArgumentPropertySerializer.java:36-39 | appends exactly one byte that reads back as the value, whatever the protocol version |
| ByteArgument.RoundTrip | proxy/src/main/java/com/velocitypowered/proxy/network/protocol/packet/brigadier/ByteArgumentPropertySerializer.java:31-39 | serializing then deserializing on one buffer returns the value, under any two protocol versions |
| ByteArgument.SignedByteInverts | proxy/src/main/java/com/velocitypowered/proxy/network/protocol/packet/brigadier/ByteArgumentPropertySerializer.java:36-39 | the byte written for a signed value reads back as that value |
| Netty.ByteBuf.ReadByte | proxy/src/main/java/com/velocitypowered/proxy/network/protocol/packet/brigadier/ByteArgumentPropertySerializer.java:33 | `readByte` returns the next byte, signed, and advances by one, or throws at the end |
| Netty.ByteBuf.WriteByte | proxy/src/main/java/com/velocitypowered/proxy/network/protocol/packet/brigadier/ByteArgumentPropertySerializer.java:38 | `writeByte` appends the low eight bits |
| Netty.SignedByte | proxy/src/main/java/com/velocitypowered/proxy/network/protocol/packet/brigadier/ByteArgumentPropertySerializer.java:33 | the signed reading of a byte has the same low eight bits |
| ResourcePack.Info.constructor | proxy/src/main/java/com/velocitypowered/proxy/connection/player/VelocityResourcePackInfo.java:37-45 | stores every field and sets `originalOrigin` to `origin` |
| ResourcePack.Info.Hash | proxy/src/main/java/com/velocitypowered/proxy/connection/player/VelocityResourcePackInfo.java:62-65 | returns null for no hash, else a fresh copy with the same contents |
| ResourcePack.Info.SetOriginalOrigin | proxy/src/main/java/com/velocitypowered/proxy/connection/player/VelocityResourcePackInfo.java:72-74 | changes `originalOrigin` only; `origin` is final |
| ResourcePack.Info.AsBuilder | proxy/src/main/java/com/velocitypowered/proxy/connection/player/VelocityResourcePackInfo.java:81-87 | the builder keeps url, required, prompt and hash contents, with origin back to `PLUGIN_ON_PROXY` |
| ResourcePack.Info.AsBuilderFor | proxy/src/main/java/com/velocitypowered/proxy/connection/player/VelocityResourcePackInfo.java:89-95 | the same with the new url |
| ResourcePack.Builder.constructor | proxy/src/main/java/com/velocitypowered/proxy/connection/player/VelocityResourcePackInfo.java:102-110 | a new builder is not required, has no hash or prompt, and origin `PLUGIN_ON_PROXY` |
| ResourcePack.Builder.Required | proxy/src/main/java/com/velocitypowered/proxy/connection/player/VelocityResourcePackInfo.java:112-116 | sets `shouldForce` only |
| ResourcePack.Builder.Hash | proxy/src/main/java/com/velocitypowered/proxy/connection/player/VelocityResourcePackInfo.java:118-127 | a non-null hash whose length is not 20 throws "Hash length is not 20" and changes nothing; null clears the hash; otherwise a copy is stored |
| ResourcePack.Builder.Prompt | proxy/src/main/java/com/velocitypowered/proxy/connection/player/VelocityResourcePackInfo.java:129-133 | sets the prompt only |
| ResourcePack.Builder.SetOrigin | proxy/src/main/java/com/velocitypowered/proxy/connection/player/VelocityResourcePackInfo.java:140-143 | sets the origin only |
| ResourcePack.Builder.Build | proxy/src/main/java/com/velocitypowered/proxy/connection/player/VelocityResourcePackInfo.java:135-138 | the info carries url, hash, required, prompt and origin unchanged, and `originalOrigin == origin` |
| ResourcePack.Rebuild | proxy/src/main/java/com/velocitypowered/proxy/connection/player/VelocityResourcePackInfo.java:81-87 | `asBuilder().build()` keeps url, required, prompt and hash contents and resets both origins to `PLUGIN_ON_PROXY` |
| ResourcePack.Clone | proxy/src/main/java/com/velocitypowered/proxy/connection/player/VelocityResourcePackInfo.java:122 | `clone()` is a fresh array with the same contents |
| CommandEvent.Allow | api/src/main/java/com/velocitypowered/api/event/command/CommandExecuteEvent.java:116-118 | allowed, not forwarded, no command |
| CommandEvent.Deny | api/src/main/java/com/velocitypowered/api/event/command/CommandExecuteEvent.java:125-127 | not allowed, not forwarded, no command |
| CommandEvent.ForwardToServer | api/src/main/java/com/velocitypowered/api/event/command/CommandExecuteEvent.java:135-137 | not allowed, forwarded, no command |
| CommandEvent.ForwardToServerWith | api/src/main/java/com/velocitypowered/api/event/command/CommandExecuteEvent.java:145-148 | not allowed, forwarded, with the command; null throws |
| CommandEvent.Command | api/src/main/java/com/velocitypowered/api/event/command/CommandExecuteEvent.java:157-160 | allowed, not forwarded, with the command; null throws |
| CommandEvent.ToString | api/src/main/java/com/velocitypowered/api/event/command/CommandExecuteEvent.java:106-109 | "allowed" exactly when allowed, "denied" exactly when not |
| CommandEvent.NeverAllowedAndForwarded | api/src/main/java/com/velocitypowered/api/event/command/CommandExecuteEvent.java:79-81 | no factory result is both allowed and forwarded |
| CommandEvent.CommandExecuteEvent.constructor | api/src/main/java/com/velocitypowered/api/event/command/CommandExecuteEvent.java:36-40 | a new event's result is `allow()` |
| CommandEvent.CommandExecuteEvent.SetResult | api/src/main/java/com/velocitypowered/api/event/command/CommandExecuteEvent.java:60-63 | null throws and keeps the result; otherwise replaces it |
| CommandEvent.NewCommandExecuteEvent | api/src/main/java/com/velocitypowered/api/event/command/CommandExecuteEvent.java:36-40 | null source, then null command, throw; otherwise a fresh event with result `allow()` |
| KickEvent.Disconnect | api/src/main/java/com/velocitypowered/api/event/player/KickedFromServerEvent.java:131-133 | a non-null reason gives an allowed `DisconnectPlayer`; null throws |
| KickEvent.RedirectWith | api/src/main/java/com/velocitypowered/api/event/player/KickedFromServerEvent.java:172-175 | a non-null server gives a not-allowed `RedirectPlayer` keeping the message; null throws |
| KickEvent.Redirect | api/src/main/java/com/velocitypowered/api/event/player/KickedFromServerEvent.java:184-186 | the same with no message |
| KickEvent.NotifyWith | api/src/main/java/com/velocitypowered/api/event/player/KickedFromServerEvent.java:217-219 | a non-null message gives a not-allowed `Notify`; null throws |
| KickEvent.AllowedOnlyForDisconnect | api/src/main/java/com/velocitypowered/api/event/player/KickedFromServerEvent.java:116-119 | `allowed()` holds exactly for `DisconnectPlayer` |
| KickEvent.KickedFromServerEvent.constructor | api/src/main/java/com/velocitypowered/api/event/player/KickedFromServerEvent.java:45-53 | stores player, server, reason, flag and result |
| KickEvent.KickedFromServerEvent.KickedDuringLogin | api/src/main/java/com/velocitypowered/api/event/player/KickedFromServerEvent.java:93-96 | always equals `kickedDuringServerConnect()` |
| KickEvent.KickedFromServerEvent.SetResult | api/src/main/java/com/velocitypowered/api/event/player/KickedFromServerEvent.java:60-63 | null throws and keeps the result; otherwise replaces only the result |
| KickEvent.NewKickedFromServerEvent | api/src/main/java/com/velocitypowered/api/event/player/KickedFromServerEvent.java:45-53 | null player, server or result throws, in that order; the reason may be null |
| StatusSession.RequestsOnce | proxy/src/main/java/com/velocitypowered/proxy/connection/client/StatusSessionHandler.java:61-67 | the first legacy ping or status request sets `pingReceived` and issues one lookup; any later one throws `EXPECTED_AWAITING_REQUEST` and does nothing |
| StatusSession.ClosingKeepsState | proxy/src/main/java/com/velocitypowered/proxy/connection/client/StatusSessionHandler.java:78-82 | a status ping closes with that same packet, unknown bytes close the connection, and neither touches `pingReceived` |
| StatusSession.ReceivedIffRequested | proxy/src/main/java/com/velocitypowered/proxy/connection/client/StatusSessionHandler.java:45 | after any inputs, `pingReceived` holds exactly when some input was a request |
| StatusSession.AtMostOneLookup | proxy/src/main/java/com/velocitypowered/proxy/connection/client/StatusSessionHandler.java:84-98 | over any sequence of inputs at most one ping lookup is issued, and one exactly once a request has arrived |
| StatusSession.LaterRequestThrows | proxy/src/main/java/com/velocitypowered/proxy/connection/client/StatusSessionHandler.java:84-88 | after any request, a further request of either kind throws and leaves the session unchanged |
| StatusSession.StatusSessionHandler.constructor | proxy/src/main/java/com/velocitypowered/proxy/connection/client/StatusSessionHandler.java:45 | `pingReceived` starts false |
| StatusSession.StatusSessionHandler.HandleLegacyPing | proxy/src/main/java/com/velocitypowered/proxy/connection/client/StatusSessionHandler.java:61-76 | agrees with `Handle` on a legacy ping and returns true |
| StatusSession.StatusSessionHandler.HandleStatusPing | proxy/src/main/java/com/velocitypowered/proxy/connection/client/StatusSessionHandler.java:78-82 | agrees with `Handle` on a status ping and returns true |
| StatusSession.StatusSessionHandler.HandleStatusRequest | proxy/src/main/java/com/velocitypowered/proxy/connection/client/StatusSessionHandler.java:84-98 | agrees with `Handle` on a status request and returns true |
| StatusSession.StatusSessionHandler.HandleUnknown | proxy/src/main/java/com/velocitypowered/proxy/connection/client/StatusSessionHandler.java:100-104 | agrees with `Handle` on unknown bytes |

## Left out

- Netty.ByteBuf.ReadUtf: on a throw the model leaves the reader index where it was, while `DataInputStream.readUTF` has already consumed the length prefix (and, on a malformed body, the body). `process` never reads the buffer after a throw, so nothing observable depends on it.
- Netty plumbing: `fireAndForget`, `write`, `sendPluginMessage`, and the async futures of the status handler are modelled as entries in an effect log. Buffer reference counting (`retainedSlice`, `release`) is not modelled.
- Adventure serializers (`LegacyComponentSerializer`, `GsonComponentSerializer`) are not modelled. A message or kick reason stays the raw string, tagged with the serializer that would read it. Which texts the JSON serializer accepts is a given predicate of the proxy snapshot (`isComponentJson`); a rejected MessageRaw text throws `MalformedJson`. The legacy serializer accepts every text.
- `UuidUtils.toUndashed` is not modelled: the undashed UUID is a field of the player record.
- The registrar implementation is not part of this model. Only the set semantics its test asserts are modelled: the single remap `BungeeCord` to `bungeecord:main`, and ASCII-only lowercasing.
- Registrar concurrency is not modelled.
- JavaUtf.FromUtf16: a lone surrogate fails to decode (`Unrepresentable`), because a Dafny `char` cannot hold one. Java would accept it.
- `ProtocolVersion` is its protocol number, compared numerically. 1.13 is 393.
- The `ResourcePackInfo.Origin` enum is not part of this model. The code names only `PLUGIN_ON_PROXY`; the model adds one more value, `DownstreamServer`, to stand for any other origin.
- ResourcePack.Builder.constructor: the `checkNotNull(url)` is not modelled, because a Dafny `string` cannot be null.
- The event `toString` methods other than `CommandResult.toString` are not modelled. They depend on `CommandSource.toString` and component printing, which are not part of this model.
- StatusSession: `activated()` only logs, so it is not modelled. The ping responses that arrive later through futures are not modelled either; the lookup is the last step recorded.
- Truncated payloads: a short buffer makes `readUTF` throw (`EndOfBuffer`), and `process` lets it escape. The model returns that `Failure`. Every sub-command does its reads before its one effect, so no effect is logged.
- ForwardToPlayer follows the code: it forwards the bytes that remain after the player name (`in.unwrap().copy()`), not the whole original message.
- `MessageRaw` is `ProcessMessage` with `json` set: the text is read by the JSON serializer, which can throw, instead of the legacy one.
