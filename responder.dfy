/**
 * `BungeeCordMessageResponder`: one per connected player; reads a BungeeCord plugin
 * message step by step from its buffer, writes each reply field by field into a fresh
 * buffer, and appends what it makes the proxy do to a log. Every method is proved to do
 * exactly what the matching function of module BungeeCord describes.
 */
module BungeeCordResponder {
  import opened Wrappers
  import opened JavaUtf
  import opened Wire
  import opened Netty
  import opened Directory
  import BungeeCord

  /** The log went from `before` to `after` as `outcome` says, and `status` reports it. */
  predicate Performed(before: seq<Effect>, outcome: Result<seq<Effect>, Exception>,
                      after: seq<Effect>, status: Result<(), Exception>)
  {
    match outcome
    case Success(es) => status == Success(()) && after == before + es
    case Failure(e) => status == Failure(e) && after == before
  }

  /**
   * The reply buffer holds the bytes of the first `n` of the planned `fields`: what a
   * writer has produced after writing those fields in order.
   */
  ghost predicate Holds(out: ByteBuf, fields: seq<Field>, n: nat)
    reads out
  {
    out.Valid() && out.readerIndex == 0 && n <= |fields| && Encode(fields[..n]) == Success(out.content)
  }

  /** Writing the next planned field; its bytes are appended. */
  lemma WroteNext(fields: seq<Field>, n: nat, before: seq<Byte>, bytes: seq<Byte>)
    requires n < |fields| && Encode(fields[..n]) == Success(before)
    requires FieldBytes(fields[n]) == Success(bytes)
    ensures Encode(fields[..n + 1]) == Success(before + bytes)
  {
    EncodeSnoc(fields[..n], fields[n]);
    assert fields[..n] + [fields[n]] == fields[..n + 1];
  }

  /** A planned field that cannot be written makes the writes up to it throw. */
  lemma FailedAt(fields: seq<Field>, n: nat)
    requires n < |fields| && Encode(fields[..n]).Success? && FieldBytes(fields[n]).Failure?
    ensures Encode(fields[..n + 1]) == Failure(FieldBytes(fields[n]).error)
  {
    EncodeSnoc(fields[..n], fields[n]);
    assert fields[..n] + [fields[n]] == fields[..n + 1];
  }

  /** Once the writes up to one field throw, the whole reply throws the same. */
  lemma ThrowsFrom(fields: seq<Field>, n: nat)
    requires n < |fields| && Encode(fields[..n + 1]).Failure?
    ensures Encode(fields) == Encode(fields[..n + 1])
  {
    EncodeFailsWithPrefix(fields[..n + 1], fields[n + 1..]);
    assert fields[..n + 1] + fields[n + 1..] == fields;
  }

  /** `out.writeUTF(s)`, the `n`-th planned field. */
  method PutUtf(out: ByteBuf, ghost fields: seq<Field>, ghost n: nat, s: string) returns (ok: bool)
    requires Holds(out, fields, n) && n < |fields| && fields[n] == Utf(s)
    modifies out
    ensures ok ==> Holds(out, fields, n + 1)
    ensures !ok ==> Encode(fields) == Failure(UtfTooLong)
  {
    ghost var before := out.content;
    ok := out.WriteUtf(s);
    if ok {
      WroteNext(fields, n, before, UtfBytes(s).value);
    } else {
      FailedAt(fields, n);
      ThrowsFrom(fields, n);
    }
  }

  /** `out.writeInt(v)`, the `n`-th planned field. */
  method PutInt(out: ByteBuf, ghost fields: seq<Field>, ghost n: nat, v: int)
    requires Holds(out, fields, n) && n < |fields| && fields[n] == Int(v)
    modifies out
    ensures Holds(out, fields, n + 1)
  {
    ghost var before := out.content;
    out.WriteInt(v);
    WroteNext(fields, n, before, IntBytes(v));
  }

  /** `out.writeShort(v)`, the `n`-th planned field. */
  method PutShort(out: ByteBuf, ghost fields: seq<Field>, ghost n: nat, v: int)
    requires Holds(out, fields, n) && n < |fields| && fields[n] == Short(v)
    modifies out
    ensures Holds(out, fields, n + 1)
  {
    ghost var before := out.content;
    out.WriteShort(v);
    WroteNext(fields, n, before, ShortBytes(v));
  }

  /** Host then port of an address, the `n`-th and next planned fields. */
  method PutAddress(out: ByteBuf, ghost fields: seq<Field>, ghost n: nat, address: Address, shortPort: bool)
    returns (ok: bool)
    requires Holds(out, fields, n) && n + 2 <= |fields|
    requires fields[n..n + 2] == BungeeCord.AddressFields(address, shortPort)
    modifies out
    ensures ok ==> Holds(out, fields, n + 2)
    ensures !ok ==> Encode(fields) == Failure(UtfTooLong)
  {
    assert fields[n] == fields[n..n + 2][0] && fields[n + 1] == fields[n..n + 2][1];
    var host: string;
    var port: int;
    match address {
      case Inet(h, p) =>
        host, port := h, p;
      case Unix(path) =>
        host, port := "unix://" + path, 0;
    }
    ok := PutUtf(out, fields, n, host);
    if ok {
      if shortPort {
        PutShort(out, fields, n + 1, port);
      } else {
        PutInt(out, fields, n + 1, port);
      }
    }
  }

  /** The `StringJoiner(", ")` loop over the players' usernames. */
  method JoinUsernames(players: seq<Player>) returns (joined: string)
    ensures joined == BungeeCord.Join(BungeeCord.Usernames(players))
  {
    joined := "";
    var i := 0;
    while i < |players|
      invariant 0 <= i <= |players|
      invariant joined == BungeeCord.Join(BungeeCord.Usernames(players[..i]))
    {
      assert BungeeCord.Usernames(players[..i + 1]) ==
             BungeeCord.Usernames(players[..i]) + [players[i].username];
      joined := if i == 0 then players[i].username else joined + ", " + players[i].username;
      i := i + 1;
    }
    assert players[..i] == players;
  }

  /** The `StringJoiner(", ")` loop over the registered servers' names. */
  method JoinServerNames(servers: seq<RegisteredServer>) returns (joined: string)
    ensures joined == BungeeCord.Join(BungeeCord.ServerNames(servers))
  {
    joined := "";
    var i := 0;
    while i < |servers|
      invariant 0 <= i <= |servers|
      invariant joined == BungeeCord.Join(BungeeCord.ServerNames(servers[..i]))
    {
      assert BungeeCord.ServerNames(servers[..i + 1]) ==
             BungeeCord.ServerNames(servers[..i]) + [servers[i].info.name];
      joined := if i == 0 then servers[i].info.name else joined + ", " + servers[i].info.name;
      i := i + 1;
    }
    assert servers[..i] == servers;
  }

  class Responder {
    const proxy: Proxy
    const player: Player
    /** Everything this responder has made the proxy do, oldest first. */
    var sent: seq<Effect>

    constructor (proxy: Proxy, player: Player)
      ensures this.proxy == proxy && this.player == player && sent == []
    {
      this.proxy := proxy;
      this.player := player;
      sent := [];
    }

    /** `sendServerResponse`: the buffer's bytes on the target's backend connection. */
    method SendServerResponse(target: Player, buf: ByteBuf) returns (status: Result<(), Exception>)
      requires buf.Valid()
      modifies this
      ensures Performed(old(sent), BungeeCord.ServerResponse(target, buf.Readable()), sent, status)
    {
      match target.connectedServer {
        case None =>
          status := Failure(NotConnected);
        case Some(serverConnection) =>
          match serverConnection.connection {
            case None =>
              status := Failure(NotConnected);
            case Some(connection) =>
              var chan := BungeeCord.BungeeCordChannel(connection.version);
              var payload := buf.CopyReadable();
              sent := sent + [ServerWrite(connection.id, chan, payload)];
              status := Success(());
          }
      }
    }

    /** `sendServerResponse` of a reply whose planned fields have all been written. */
    method SendReply(ghost fields: seq<Field>, out: ByteBuf) returns (status: Result<(), Exception>)
      requires Holds(out, fields, |fields|)
      modifies this
      ensures Performed(old(sent), BungeeCord.Reply(player, fields), sent, status)
    {
      assert fields[..|fields|] == fields;
      status := SendServerResponse(player, out);
    }

    method ProcessConnect(input: ByteBuf) returns (status: Result<(), Exception>)
      requires input.Valid()
      modifies this, input
      ensures input.Valid()
      ensures Performed(old(sent), BungeeCord.Connect(proxy, player, old(input.Readable())), sent, status)
    {
      var serverName := input.ReadUtf();
      if serverName.Failure? {
        return Failure(serverName.error);
      }
      if serverName.value in proxy.serversByName {
        sent := sent + [ConnectRequest(player.username, proxy.serversByName[serverName.value].info)];
      }
      status := Success(());
    }

    method ProcessConnectOther(input: ByteBuf) returns (status: Result<(), Exception>)
      requires input.Valid()
      modifies this, input
      ensures input.Valid()
      ensures Performed(old(sent), BungeeCord.ConnectOther(proxy, old(input.Readable())), sent, status)
    {
      var playerName := input.ReadUtf();
      if playerName.Failure? {
        return Failure(playerName.error);
      }
      var serverName := input.ReadUtf();
      if serverName.Failure? {
        return Failure(serverName.error);
      }
      if playerName.value in proxy.playersByName && serverName.value in proxy.serversByName {
        var referenced := proxy.playersByName[playerName.value];
        sent := sent + [ConnectRequest(referenced.username, proxy.serversByName[serverName.value].info)];
      }
      status := Success(());
    }

    method ProcessIp() returns (status: Result<(), Exception>)
      modifies this
      ensures Performed(old(sent), BungeeCord.Ip(player), sent, status)
    {
      ghost var fields := [Utf("IP")] + BungeeCord.AddressFields(player.remoteAddress, false);
      var out := new ByteBuf.Empty();
      assert fields[..0] == [];
      var ok := PutUtf(out, fields, 0, "IP");
      if !ok {
        return Failure(UtfTooLong);
      }
      assert fields[1..3] == BungeeCord.AddressFields(player.remoteAddress, false);
      ok := PutAddress(out, fields, 1, player.remoteAddress, false);
      if !ok {
        return Failure(UtfTooLong);
      }
      status := SendReply(fields, out);
    }

    /** The PlayerCount reply's writes: for everyone, for a known server, or none at all. */
    method WritePlayerCount(out: ByteBuf, target: string) returns (ok: bool)
      requires Holds(out, BungeeCord.PlayerCountFields(proxy, target), 0)
      modifies out
      ensures ok ==> Holds(out, BungeeCord.PlayerCountFields(proxy, target), |BungeeCord.PlayerCountFields(proxy, target)|)
      ensures !ok ==> Encode(BungeeCord.PlayerCountFields(proxy, target)) == Failure(UtfTooLong)
    {
      ghost var fields := BungeeCord.PlayerCountFields(proxy, target);
      ok := true;
      if target == "ALL" {
        ok := PutUtf(out, fields, 0, "PlayerCount");
        if !ok {
          return;
        }
        ok := PutUtf(out, fields, 1, "ALL");
        if !ok {
          return;
        }
        PutInt(out, fields, 2, SizeOf(|proxy.onlinePlayers|));
      } else if target in proxy.serversByName {
        var rs := proxy.serversByName[target];
        var playersOnServer := SizeOf(|rs.players|);
        ok := PutUtf(out, fields, 0, "PlayerCount");
        if !ok {
          return;
        }
        ok := PutUtf(out, fields, 1, rs.info.name);
        if !ok {
          return;
        }
        PutInt(out, fields, 2, playersOnServer);
      }
    }

    method ProcessPlayerCount(input: ByteBuf) returns (status: Result<(), Exception>)
      requires input.Valid()
      modifies this, input
      ensures input.Valid()
      ensures Performed(old(sent), BungeeCord.PlayerCount(proxy, player, old(input.Readable())), sent, status)
    {
      var out := new ByteBuf.Empty();
      var target := input.ReadUtf();
      if target.Failure? {
        return Failure(target.error);
      }
      ghost var fields := BungeeCord.PlayerCountFields(proxy, target.value);
      assert fields[..0] == [];
      var ok := WritePlayerCount(out, target.value);
      if !ok {
        return Failure(UtfTooLong);
      }
      assert fields[..|fields|] == fields;
      var readable := out.IsReadable();
      if readable {
        status := SendServerResponse(player, out);
      } else {
        status := Success(());
      }
    }

    /** The PlayerList reply's writes: for everyone, for a known server, or none at all. */
    method WritePlayerList(out: ByteBuf, target: string) returns (ok: bool)
      requires Holds(out, BungeeCord.PlayerListFields(proxy, target), 0)
      modifies out
      ensures ok ==> Holds(out, BungeeCord.PlayerListFields(proxy, target), |BungeeCord.PlayerListFields(proxy, target)|)
      ensures !ok ==> Encode(BungeeCord.PlayerListFields(proxy, target)) == Failure(UtfTooLong)
    {
      ghost var fields := BungeeCord.PlayerListFields(proxy, target);
      ok := true;
      if target == "ALL" {
        ok := PutUtf(out, fields, 0, "PlayerList");
        if !ok {
          return;
        }
        ok := PutUtf(out, fields, 1, "ALL");
        if !ok {
          return;
        }
        var joined := JoinUsernames(proxy.onlinePlayers);
        ok := PutUtf(out, fields, 2, joined);
      } else if target in proxy.serversByName {
        var rs := proxy.serversByName[target];
        ok := PutUtf(out, fields, 0, "PlayerList");
        if !ok {
          return;
        }
        ok := PutUtf(out, fields, 1, rs.info.name);
        if !ok {
          return;
        }
        var joined := JoinUsernames(rs.players);
        ok := PutUtf(out, fields, 2, joined);
      }
    }

    method ProcessPlayerList(input: ByteBuf) returns (status: Result<(), Exception>)
      requires input.Valid()
      modifies this, input
      ensures input.Valid()
      ensures Performed(old(sent), BungeeCord.PlayerList(proxy, player, old(input.Readable())), sent, status)
    {
      var out := new ByteBuf.Empty();
      var target := input.ReadUtf();
      if target.Failure? {
        return Failure(target.error);
      }
      ghost var fields := BungeeCord.PlayerListFields(proxy, target.value);
      assert fields[..0] == [];
      var ok := WritePlayerList(out, target.value);
      if !ok {
        return Failure(UtfTooLong);
      }
      assert fields[..|fields|] == fields;
      var readable := out.IsReadable();
      if readable {
        status := SendServerResponse(player, out);
      } else {
        status := Success(());
      }
    }

    method ProcessGetServers() returns (status: Result<(), Exception>)
      modifies this
      ensures Performed(old(sent), BungeeCord.GetServers(proxy, player), sent, status)
    {
      var joined := JoinServerNames(proxy.registeredServers);
      ghost var fields := [Utf("GetServers"), Utf(joined)];
      var out := new ByteBuf.Empty();
      assert fields[..0] == [];
      var ok := PutUtf(out, fields, 0, "GetServers");
      if !ok {
        return Failure(UtfTooLong);
      }
      ok := PutUtf(out, fields, 1, joined);
      if !ok {
        return Failure(UtfTooLong);
      }
      status := SendReply(fields, out);
    }

    method ProcessMessage(input: ByteBuf, json: bool) returns (status: Result<(), Exception>)
      requires input.Valid()
      modifies this, input
      ensures input.Valid()
      ensures Performed(old(sent), BungeeCord.Message(proxy, old(input.Readable()), json), sent, status)
    {
      var target := input.ReadUtf();
      if target.Failure? {
        return Failure(target.error);
      }
      var message := input.ReadUtf();
      if message.Failure? {
        return Failure(message.error);
      }
      if json && !proxy.isComponentJson(message.value) {
        return Failure(MalformedJson);
      }
      var component := if json then Json(message.value) else LegacySection(message.value);
      if target.value == "ALL" {
        sent := sent + [Broadcast(component)];
      } else if target.value in proxy.playersByName {
        sent := sent + [SendMessage(proxy.playersByName[target.value].username, component)];
      }
      status := Success(());
    }

    method ProcessGetServer() returns (status: Result<(), Exception>)
      modifies this
      ensures Performed(old(sent), BungeeCord.GetServer(player), sent, status)
    {
      if player.connectedServer.None? {
        return Failure(NotConnected);
      }
      var name := player.connectedServer.value.info.name;
      ghost var fields := [Utf("GetServer"), Utf(name)];
      var out := new ByteBuf.Empty();
      assert fields[..0] == [];
      var ok := PutUtf(out, fields, 0, "GetServer");
      if !ok {
        return Failure(UtfTooLong);
      }
      ok := PutUtf(out, fields, 1, name);
      if !ok {
        return Failure(UtfTooLong);
      }
      status := SendReply(fields, out);
    }

    method ProcessUuid() returns (status: Result<(), Exception>)
      modifies this
      ensures Performed(old(sent), BungeeCord.Uuid(player), sent, status)
    {
      ghost var fields := [Utf("UUID"), Utf(player.undashedUuid)];
      var out := new ByteBuf.Empty();
      assert fields[..0] == [];
      var ok := PutUtf(out, fields, 0, "UUID");
      if !ok {
        return Failure(UtfTooLong);
      }
      ok := PutUtf(out, fields, 1, player.undashedUuid);
      if !ok {
        return Failure(UtfTooLong);
      }
      status := SendReply(fields, out);
    }

    method ProcessUuidOther(input: ByteBuf) returns (status: Result<(), Exception>)
      requires input.Valid()
      modifies this, input
      ensures input.Valid()
      ensures Performed(old(sent), BungeeCord.UuidOther(proxy, player, old(input.Readable())), sent, status)
    {
      var name := input.ReadUtf();
      if name.Failure? {
        return Failure(name.error);
      }
      if name.value !in proxy.playersByName {
        return Success(());
      }
      var other := proxy.playersByName[name.value];
      ghost var fields := [Utf("UUIDOther"), Utf(other.username), Utf(other.undashedUuid)];
      var out := new ByteBuf.Empty();
      assert fields[..0] == [];
      var ok := PutUtf(out, fields, 0, "UUIDOther");
      if !ok {
        return Failure(UtfTooLong);
      }
      ok := PutUtf(out, fields, 1, other.username);
      if !ok {
        return Failure(UtfTooLong);
      }
      ok := PutUtf(out, fields, 2, other.undashedUuid);
      if !ok {
        return Failure(UtfTooLong);
      }
      status := SendReply(fields, out);
    }

    method ProcessIpOther(input: ByteBuf) returns (status: Result<(), Exception>)
      requires input.Valid()
      modifies this, input
      ensures input.Valid()
      ensures Performed(old(sent), BungeeCord.IpOther(proxy, player, old(input.Readable())), sent, status)
    {
      var name := input.ReadUtf();
      if name.Failure? {
        return Failure(name.error);
      }
      if name.value !in proxy.playersByName {
        return Success(());
      }
      var other := proxy.playersByName[name.value];
      ghost var fields := [Utf("IPOther"), Utf(other.username)] + BungeeCord.AddressFields(other.remoteAddress, false);
      var out := new ByteBuf.Empty();
      assert fields[..0] == [];
      var ok := PutUtf(out, fields, 0, "IPOther");
      if !ok {
        return Failure(UtfTooLong);
      }
      ok := PutUtf(out, fields, 1, other.username);
      if !ok {
        return Failure(UtfTooLong);
      }
      assert fields[2..4] == BungeeCord.AddressFields(other.remoteAddress, false);
      ok := PutAddress(out, fields, 2, other.remoteAddress, false);
      if !ok {
        return Failure(UtfTooLong);
      }
      status := SendReply(fields, out);
    }

    method ProcessServerIp(input: ByteBuf) returns (status: Result<(), Exception>)
      requires input.Valid()
      modifies this, input
      ensures input.Valid()
      ensures Performed(old(sent), BungeeCord.ServerIp(proxy, player, old(input.Readable())), sent, status)
    {
      var name := input.ReadUtf();
      if name.Failure? {
        return Failure(name.error);
      }
      if name.value !in proxy.serversByName {
        return Success(());
      }
      var info := proxy.serversByName[name.value].info;
      ghost var fields := [Utf("ServerIP"), Utf(info.name)] + BungeeCord.AddressFields(info.address, true);
      var out := new ByteBuf.Empty();
      assert fields[..0] == [];
      var ok := PutUtf(out, fields, 0, "ServerIP");
      if !ok {
        return Failure(UtfTooLong);
      }
      ok := PutUtf(out, fields, 1, info.name);
      if !ok {
        return Failure(UtfTooLong);
      }
      assert fields[2..4] == BungeeCord.AddressFields(info.address, true);
      ok := PutAddress(out, fields, 2, info.address, true);
      if !ok {
        return Failure(UtfTooLong);
      }
      status := SendReply(fields, out);
    }

    method ProcessKick(input: ByteBuf) returns (status: Result<(), Exception>)
      requires input.Valid()
      modifies this, input
      ensures input.Valid()
      ensures Performed(old(sent), BungeeCord.KickPlayer(proxy, old(input.Readable())), sent, status)
    {
      var name := input.ReadUtf();
      if name.Failure? {
        return Failure(name.error);
      }
      if name.value in proxy.playersByName {
        var kickReason := input.ReadUtf();
        if kickReason.Failure? {
          return Failure(kickReason.error);
        }
        sent := sent + [Disconnect(proxy.playersByName[name.value].username, LegacySection(kickReason.value))];
      }
      status := Success(());
    }

    method ProcessForwardToPlayer(input: ByteBuf) returns (status: Result<(), Exception>)
      requires input.Valid()
      modifies this, input
      ensures input.Valid()
      ensures Performed(old(sent), BungeeCord.ForwardToPlayer(proxy, old(input.Readable())), sent, status)
    {
      var name := input.ReadUtf();
      if name.Failure? {
        return Failure(name.error);
      }
      if name.value in proxy.playersByName {
        var toForward := input.CopyReadable();
        var buf := new ByteBuf.Wrap(toForward);
        status := SendServerResponse(proxy.playersByName[name.value], buf);
      } else {
        status := Success(());
      }
    }

    method ProcessForwardToServer(input: ByteBuf) returns (status: Result<(), Exception>)
      requires input.Valid()
      modifies this, input
      ensures input.Valid()
      ensures Performed(old(sent), BungeeCord.Forward(proxy, player, old(input.Readable())), sent, status)
    {
      var target := input.ReadUtf();
      if target.Failure? {
        return Failure(target.error);
      }
      var toForward := input.CopyReadable();
      var currentUserServer := BungeeCord.CurrentServerInfo(player);
      if target.value == "ALL" || target.value == "ONLINE" {
        var servers := proxy.registeredServers;
        var i := 0;
        while i < |servers|
          modifies this
          invariant 0 <= i <= |servers|
          invariant sent == old(sent) + BungeeCord.ForwardToServers(servers[..i], currentUserServer, toForward)
        {
          var rs := servers[i];
          if currentUserServer != Some(rs.info) {
            sent := sent + [ServerPluginMessage(rs.info, BungeeCord.LegacyChannel.Id(), toForward)];
          }
          assert servers[..i + 1][..i] == servers[..i];
          i := i + 1;
        }
        assert servers[..i] == servers;
      } else if target.value in proxy.serversByName {
        sent := sent + [ServerPluginMessage(proxy.serversByName[target.value].info,
                                            BungeeCord.LegacyChannel.Id(), toForward)];
      }
      status := Success(());
    }

    /** `process`: whether the message was claimed; an exception escapes as a failure. */
    method Process(message: PluginMessage) returns (r: Result<bool, Exception>)
      modifies this
      ensures match BungeeCord.Process(proxy, player, message)
              case Success((handled, es)) => r == Success(handled) && sent == old(sent) + es
              case Failure(e) => r == Failure(e) && sent == old(sent)
    {
      if !proxy.bungeePluginChannelEnabled {
        return Success(false);
      }
      if !BungeeCord.IsBungeeCordMessage(message) {
        return Success(false);
      }
      var input := new ByteBuf.Wrap(message.content);
      var subChannel := input.ReadUtf();
      if subChannel.Failure? {
        return Failure(subChannel.error);
      }
      var sub := subChannel.value;
      ghost var body := input.Readable();
      var status: Result<(), Exception>;
      if sub == "ForwardToPlayer" {
        status := ProcessForwardToPlayer(input);
      } else if sub == "Forward" {
        status := ProcessForwardToServer(input);
      } else if sub == "Connect" {
        status := ProcessConnect(input);
      } else if sub == "ConnectOther" {
        status := ProcessConnectOther(input);
      } else if sub == "IP" {
        status := ProcessIp();
      } else if sub == "PlayerCount" {
        status := ProcessPlayerCount(input);
      } else if sub == "PlayerList" {
        status := ProcessPlayerList(input);
      } else if sub == "GetServers" {
        status := ProcessGetServers();
      } else if sub == "Message" {
        status := ProcessMessage(input, false);
      } else if sub == "MessageRaw" {
        status := ProcessMessage(input, true);
      } else if sub == "GetServer" {
        status := ProcessGetServer();
      } else if sub == "UUID" {
        status := ProcessUuid();
      } else if sub == "UUIDOther" {
        status := ProcessUuidOther(input);
      } else if sub == "IPOther" {
        status := ProcessIpOther(input);
      } else if sub == "ServerIP" {
        status := ProcessServerIp(input);
      } else if sub == "KickPlayer" {
        status := ProcessKick(input);
      } else {
        // an unknown sub-command: nothing to do
        status := Success(());
      }
      assert Performed(old(sent), BungeeCord.Dispatch(proxy, player, sub, body), sent, status);
      if status.Failure? {
        return Failure(status.error);
      }
      r := Success(true);
    }
  }
}
