/**
 * The BungeeCord plugin-message protocol as the proxy answers it: which messages it
 * claims, the sub-command each one names, and for every sub-command the fields it reads,
 * the reply it writes back and the other effects it causes. Each function takes the
 * payload bytes that follow what has already been read.
 */
module BungeeCord {
  import opened Wrappers
  import opened JavaUtf
  import opened Wire
  import opened Channels
  import opened Directory

  const ModernChannel := Modern("bungeecord", "main")
  const LegacyChannel := Legacy("BungeeCord")

  /** `isBungeeCordMessage`. */
  predicate IsBungeeCordMessage(message: PluginMessage) {
    ModernChannel.Id() == message.channel || LegacyChannel.Id() == message.channel
  }

  /** `getBungeeCordChannel`: the namespaced id from 1.13 on, the bare name before. */
  function BungeeCordChannel(version: ProtocolVersion): string {
    if version >= Minecraft_1_13 then ModernChannel.Id() else LegacyChannel.Id()
  }

  /** What `StringJoiner(", ")` makes of the added parts. */
  function Join(parts: seq<string>): string {
    if |parts| == 0 then ""
    else if |parts| == 1 then parts[0]
    else Join(parts[..|parts| - 1]) + ", " + parts[|parts| - 1]
  }

  function Usernames(players: seq<Player>): (r: seq<string>)
    ensures |r| == |players|
  {
    seq(|players|, i requires 0 <= i < |players| => players[i].username)
  }

  function ServerNames(servers: seq<RegisteredServer>): (r: seq<string>)
    ensures |r| == |servers|
  {
    seq(|servers|, i requires 0 <= i < |servers| => servers[i].info.name)
  }

  /** The player's current server, if any (`connectedServer().map(serverInfo)`). */
  function CurrentServerInfo(p: Player): Option<ServerInfo> {
    match p.connectedServer
    case None => None
    case Some(sc) => Some(sc.info)
  }

  /**
   * `sendServerResponse`: the payload written on the player's current backend connection,
   * on the channel that connection's version uses; throws if there is none.
   */
  function ServerResponse(target: Player, payload: seq<Byte>): Result<seq<Effect>, Exception> {
    match target.connectedServer
    case None => Failure(NotConnected)
    case Some(sc) =>
      match sc.connection
      case None => Failure(NotConnected)
      case Some(c) => Success([ServerWrite(c.id, BungeeCordChannel(c.version), payload)])
  }

  /** A reply written field by field, then sent to the origin player's backend. */
  function Reply(origin: Player, fields: seq<Field>): Result<seq<Effect>, Exception> {
    var payload :- Encode(fields);
    ServerResponse(origin, payload)
  }

  /** Host and port of an address as IP, IPOther and ServerIP write them. */
  function AddressFields(a: Address, shortPort: bool): seq<Field> {
    match a
    case Inet(host, port) => [Utf(host), if shortPort then Short(port) else Int(port)]
    case Unix(path) => [Utf("unix://" + path), if shortPort then Short(0) else Int(0)]
  }

  // ---- the sub-commands ----

  function Connect(d: Proxy, origin: Player, body: seq<Byte>): Result<seq<Effect>, Exception> {
    var (serverName, _) :- ReadUtf(body);
    Success(if serverName in d.serversByName
            then [ConnectRequest(origin.username, d.serversByName[serverName].info)] else [])
  }

  function ConnectOther(d: Proxy, body: seq<Byte>): Result<seq<Effect>, Exception> {
    var (playerName, rest) :- ReadUtf(body);
    var (serverName, _) :- ReadUtf(rest);
    Success(if playerName in d.playersByName && serverName in d.serversByName
            then [ConnectRequest(d.playersByName[playerName].username, d.serversByName[serverName].info)]
            else [])
  }

  function Ip(origin: Player): Result<seq<Effect>, Exception> {
    Reply(origin, [Utf("IP")] + AddressFields(origin.remoteAddress, false))
  }

  /** The PlayerCount reply's fields; none for a server the proxy does not know. */
  function PlayerCountFields(d: Proxy, target: string): seq<Field> {
    if target == "ALL" then [Utf("PlayerCount"), Utf("ALL"), Int(SizeOf(|d.onlinePlayers|))]
    else if target in d.serversByName then
      var rs := d.serversByName[target];
      [Utf("PlayerCount"), Utf(rs.info.name), Int(SizeOf(|rs.players|))]
    else []
  }

  /** A reply buffer is sent only when something was written into it. */
  function ReplyIfWritten(origin: Player, fields: seq<Field>): Result<seq<Effect>, Exception> {
    var payload :- Encode(fields);
    if payload == [] then Success([]) else ServerResponse(origin, payload)
  }

  function PlayerCount(d: Proxy, origin: Player, body: seq<Byte>): Result<seq<Effect>, Exception> {
    var (target, _) :- ReadUtf(body);
    ReplyIfWritten(origin, PlayerCountFields(d, target))
  }

  function PlayerListFields(d: Proxy, target: string): seq<Field> {
    if target == "ALL" then [Utf("PlayerList"), Utf("ALL"), Utf(Join(Usernames(d.onlinePlayers)))]
    else if target in d.serversByName then
      var rs := d.serversByName[target];
      [Utf("PlayerList"), Utf(rs.info.name), Utf(Join(Usernames(rs.players)))]
    else []
  }

  function PlayerList(d: Proxy, origin: Player, body: seq<Byte>): Result<seq<Effect>, Exception> {
    var (target, _) :- ReadUtf(body);
    ReplyIfWritten(origin, PlayerListFields(d, target))
  }

  function GetServers(d: Proxy, origin: Player): Result<seq<Effect>, Exception> {
    Reply(origin, [Utf("GetServers"), Utf(Join(ServerNames(d.registeredServers)))])
  }

  /**
   * Message (legacy section text) and MessageRaw (JSON text): to everyone, or to one player.
   * Both fields are read and the text deserialized before the target is looked up; the JSON
   * serializer throws on text that is not a component, the legacy one accepts any text.
   */
  function Message(d: Proxy, body: seq<Byte>, json: bool): Result<seq<Effect>, Exception> {
    var (target, rest) :- ReadUtf(body);
    var (message, _) :- ReadUtf(rest);
    if json && !d.isComponentJson(message) then Failure(MalformedJson) else
    var text := if json then Json(message) else LegacySection(message);
    Success(if target == "ALL" then [Broadcast(text)]
            else if target in d.playersByName then [SendMessage(d.playersByName[target].username, text)]
            else [])
  }

  function GetServer(origin: Player): Result<seq<Effect>, Exception> {
    match origin.connectedServer
    case None => Failure(NotConnected)
    case Some(sc) => Reply(origin, [Utf("GetServer"), Utf(sc.info.name)])
  }

  function Uuid(origin: Player): Result<seq<Effect>, Exception> {
    Reply(origin, [Utf("UUID"), Utf(origin.undashedUuid)])
  }

  function UuidOther(d: Proxy, origin: Player, body: seq<Byte>): Result<seq<Effect>, Exception> {
    var (name, _) :- ReadUtf(body);
    if name in d.playersByName then
      var p := d.playersByName[name];
      Reply(origin, [Utf("UUIDOther"), Utf(p.username), Utf(p.undashedUuid)])
    else Success([])
  }

  function IpOther(d: Proxy, origin: Player, body: seq<Byte>): Result<seq<Effect>, Exception> {
    var (name, _) :- ReadUtf(body);
    if name in d.playersByName then
      var p := d.playersByName[name];
      Reply(origin, [Utf("IPOther"), Utf(p.username)] + AddressFields(p.remoteAddress, false))
    else Success([])
  }

  function ServerIp(d: Proxy, origin: Player, body: seq<Byte>): Result<seq<Effect>, Exception> {
    var (name, _) :- ReadUtf(body);
    if name in d.serversByName then
      var info := d.serversByName[name].info;
      Reply(origin, [Utf("ServerIP"), Utf(info.name)] + AddressFields(info.address, true))
    else Success([])
  }

  /** KickPlayer reads the reason only once the player is found. */
  function KickPlayer(d: Proxy, body: seq<Byte>): Result<seq<Effect>, Exception> {
    var (name, rest) :- ReadUtf(body);
    if name in d.playersByName then
      var (reason, _) :- ReadUtf(rest);
      Success([Disconnect(d.playersByName[name].username, LegacySection(reason))])
    else Success([])
  }

  /** The bytes after the player name, verbatim, to that player's backend connection. */
  function ForwardToPlayer(d: Proxy, body: seq<Byte>): Result<seq<Effect>, Exception> {
    var (name, rest) :- ReadUtf(body);
    if name in d.playersByName then ServerResponse(d.playersByName[name], rest) else Success([])
  }

  /** One legacy-channel plugin message per server whose info differs from `current`, in order. */
  function ForwardToServers(servers: seq<RegisteredServer>, current: Option<ServerInfo>, payload: seq<Byte>): seq<Effect>
  {
    if servers == [] then []
    else
      var last := servers[|servers| - 1];
      ForwardToServers(servers[..|servers| - 1], current, payload) +
        (if current != Some(last.info) then [ServerPluginMessage(last.info, LegacyChannel.Id(), payload)] else [])
  }

  /** Forward: the bytes after the target, to every other server (`ALL`, `ONLINE`) or to one. */
  function Forward(d: Proxy, origin: Player, body: seq<Byte>): Result<seq<Effect>, Exception> {
    var (target, rest) :- ReadUtf(body);
    if target == "ALL" || target == "ONLINE" then
      Success(ForwardToServers(d.registeredServers, CurrentServerInfo(origin), rest))
    else if target in d.serversByName then
      Success([ServerPluginMessage(d.serversByName[target].info, LegacyChannel.Id(), rest)])
    else Success([])
  }

  /** The sub-command names the proxy answers. */
  const SubCommands: set<string> := {
    "ForwardToPlayer", "Forward", "Connect", "ConnectOther", "IP", "PlayerCount",
    "PlayerList", "GetServers", "Message", "MessageRaw", "GetServer", "UUID",
    "UUIDOther", "IPOther", "ServerIP", "KickPlayer"
  }

  /** The switch on the sub-command name; an unknown name does nothing. */
  function Dispatch(d: Proxy, origin: Player, sub: string, body: seq<Byte>): Result<seq<Effect>, Exception> {
    if sub == "ForwardToPlayer" then ForwardToPlayer(d, body)
    else if sub == "Forward" then Forward(d, origin, body)
    else if sub == "Connect" then Connect(d, origin, body)
    else if sub == "ConnectOther" then ConnectOther(d, body)
    else if sub == "IP" then Ip(origin)
    else if sub == "PlayerCount" then PlayerCount(d, origin, body)
    else if sub == "PlayerList" then PlayerList(d, origin, body)
    else if sub == "GetServers" then GetServers(d, origin)
    else if sub == "Message" then Message(d, body, false)
    else if sub == "MessageRaw" then Message(d, body, true)
    else if sub == "GetServer" then GetServer(origin)
    else if sub == "UUID" then Uuid(origin)
    else if sub == "UUIDOther" then UuidOther(d, origin, body)
    else if sub == "IPOther" then IpOther(d, origin, body)
    else if sub == "ServerIP" then ServerIp(d, origin, body)
    else if sub == "KickPlayer" then KickPlayer(d, body)
    else Success([])
  }

  /**
   * `process`: whether the message was claimed, and what handling it did; an exception
   * escapes with no effect.
   */
  function Process(d: Proxy, origin: Player, message: PluginMessage): Result<(bool, seq<Effect>), Exception> {
    if !d.bungeePluginChannelEnabled then Success((false, []))
    else if !IsBungeeCordMessage(message) then Success((false, []))
    else
      var (sub, body) :- ReadUtf(message.content);
      var effects :- Dispatch(d, origin, sub, body);
      Success((true, effects))
  }
}
