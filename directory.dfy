/**
 * What the BungeeCord responder sees of the proxy: a snapshot of the player and server
 * directory, the origin player's connection, and the effects it asks the proxy to carry
 * out (plugin messages written, connect requests, chat messages, disconnects).
 */
module Directory {
  import opened Wrappers
  import opened JavaUtf

  /** A protocol version by its protocol number. */
  type ProtocolVersion = int

  const Minecraft_1_13: ProtocolVersion := 393

  type Port = x: int | 0 <= x < 0x1_0000

  /** A socket address: an Internet host and port, or a Unix domain socket path. */
  datatype Address = Inet(host: string, port: Port) | Unix(path: string)

  /** `ServerInfo`: a registered server's name and address; equality compares both. */
  datatype ServerInfo = ServerInfo(name: string, address: Address)

  /** The `MinecraftConnection` to a backend server: an id for the log and its protocol version. */
  datatype Connection = Connection(id: nat, version: ProtocolVersion)

  /** A player's current backend: the server, and its connection once established. */
  datatype ServerConnection = ServerConnection(info: ServerInfo, connection: Option<Connection>)

  /**
   * A connected player: the fields the responder reads. `undashedUuid` stands for
   * `UuidUtils.toUndashed(uuid())`, which this model takes as given.
   */
  datatype Player = Player(
    username: string,
    undashedUuid: string,
    remoteAddress: Address,
    connectedServer: Option<ServerConnection>)

  /** A registered server and the players currently on it. */
  datatype RegisteredServer = RegisteredServer(info: ServerInfo, players: seq<Player>)

  /**
   * The proxy as the responder sees it: the configuration flag, lookup by name
   * (`player(name)`, `server(name)`), and enumeration in iteration order.
   * `isComponentJson` tells which texts `GsonComponentSerializer.deserialize` accepts;
   * the serializer itself is taken as given.
   */
  datatype Proxy = Proxy(
    bungeePluginChannelEnabled: bool,
    isComponentJson: string -> bool,
    playersByName: map<string, Player>,
    serversByName: map<string, RegisteredServer>,
    onlinePlayers: seq<Player>,
    registeredServers: seq<RegisteredServer>)

  /** A Java collection's `size()`: the element count, capped at `Integer.MAX_VALUE`. */
  function SizeOf(n: nat): (r: int)
    ensures 0 <= r < 0x8000_0000
    ensures n < 0x8000_0000 ==> r == n
  {
    if n < 0x8000_0000 then n else 0x7FFF_FFFF
  }

  /** The chat component a message string is turned into, by the serializer that reads it. */
  datatype Text = LegacySection(raw: string) | Json(raw: string)

  datatype PluginMessage = PluginMessage(channel: string, content: seq<Byte>)

  /** Something the responder makes the proxy do. */
  datatype Effect =
    | ServerWrite(connection: nat, channel: string, payload: seq<Byte>)     // a plugin message on a backend connection
    | ServerPluginMessage(server: ServerInfo, channel: string, payload: seq<Byte>) // `RegisteredServer.sendPluginMessage`
    | ConnectRequest(player: string, server: ServerInfo)                   // `createConnectionRequest(...).fireAndForget()`
    | Broadcast(message: Text)                                             // `proxy.sendMessage`
    | SendMessage(player: string, message: Text)                           // `player.sendMessage`
    | Disconnect(player: string, reason: Text)                             // `player.disconnect`
}
