/**
 * What the BungeeCord responder promises, stated over module BungeeCord: which messages
 * it claims, the channel its replies use, what a backend server reads back from each
 * reply, where forwarded bytes go, and that lookups which miss do nothing.
 */
module BungeeCordProperties {
  import opened Wrappers
  import opened JavaUtf
  import opened Wire
  import opened Channels
  import opened Directory
  import opened BungeeCord

  /** The player has a current backend server and an established connection to it. */
  predicate Connected(p: Player) {
    p.connectedServer.Some? && p.connectedServer.value.connection.Some?
  }

  function ConnectionOf(p: Player): Connection
    requires Connected(p)
  {
    p.connectedServer.value.connection.value
  }

  /**
   * `r` is a single plugin message on the player's backend connection, on the channel that
   * connection's version uses, and a backend reading the fields' kinds in order reads back
   * exactly `fields` with nothing left over.
   */
  ghost predicate SendsReply(r: Result<seq<Effect>, Exception>, origin: Player, fields: seq<Field>) {
    Connected(origin) && r.Success? && |r.value| == 1 && r.value[0].ServerWrite? &&
    r.value[0].connection == ConnectionOf(origin).id &&
    r.value[0].channel == BungeeCordChannel(ConnectionOf(origin).version) &&
    Decode(r.value[0].payload, KindsOf(fields)) == Success((fields, []))
  }

  // ---- gating and dispatch ----

  /** `process` declines exactly the messages it must not handle, and then does nothing. */
  lemma ProcessGating(d: Proxy, origin: Player, message: PluginMessage)
    ensures Process(d, origin, message) == Success((false, [])) <==>
            !d.bungeePluginChannelEnabled || !IsBungeeCordMessage(message)
  {
  }

  /** A claimed message runs the sub-command its first field names; an unknown one does nothing. */
  lemma ProcessDispatches(d: Proxy, origin: Player, message: PluginMessage, sub: string, rest: seq<Byte>)
    requires d.bungeePluginChannelEnabled && IsBungeeCordMessage(message)
    requires UtfBytes(sub).Success? && message.content == UtfBytes(sub).value + rest
    ensures Process(d, origin, message) ==
            match Dispatch(d, origin, sub, rest)
            case Success(es) => Success((true, es))
            case Failure(e) => Failure(e)
    ensures sub !in SubCommands ==> Process(d, origin, message) == Success((true, []))
  {
    ReadUtfBytes(sub, rest);
  }

  /** The two channel names are told apart by the 1.13 threshold. */
  lemma ChannelByVersion(v: ProtocolVersion)
    ensures BungeeCordChannel(v) == "bungeecord:main" <==> v >= 393
    ensures BungeeCordChannel(v) == "BungeeCord" <==> v < 393
  {
  }

  // ---- replies ----

  /** The bytes of writes that cannot throw, each giving at least one byte. */
  lemma {:induction false} EncodeSucceeds(fs: seq<Field>)
    requires forall i :: 0 <= i < |fs| ==> FieldBytes(fs[i]).Success?
    ensures Encode(fs).Success?
    ensures |Encode(fs).value| >= |fs|
  {
    if fs != [] {
      assert FieldBytes(fs[0]).Success?;
      assert forall i :: 0 <= i < |fs[1..]| ==> fs[1..][i] == fs[i + 1];
      EncodeSucceeds(fs[1..]);
      match fs[0] {
        case Utf(s) => assert |UtfBytes(s).value| >= 2;
        case Int(_) =>
        case Short(_) =>
      }
    }
  }

  /** Every reply that can be written reaches the player's backend and reads back field for field. */
  lemma ReplyReadBack(origin: Player, fields: seq<Field>)
    requires Connected(origin)
    requires forall i :: 0 <= i < |fields| ==> FieldBytes(fields[i]).Success? && RoundTrips(fields[i])
    ensures SendsReply(Reply(origin, fields), origin, fields)
    ensures fields != [] ==> SendsReply(ReplyIfWritten(origin, fields), origin, fields)
  {
    EncodeSucceeds(fields);
    var payload := Encode(fields).value;
    DecodeEncode(fields, []);
    assert payload + [] == payload;
  }

  /** A reply that cannot be written throws before anything is sent. */
  lemma ReplyThrows(origin: Player, fields: seq<Field>)
    requires Encode(fields).Failure?
    ensures Reply(origin, fields) == Failure(Encode(fields).error)
    ensures ReplyIfWritten(origin, fields) == Failure(Encode(fields).error)
  {
  }

  /** Without a connected backend there is nowhere to reply: the send throws. */
  lemma ReplyNeedsConnection(origin: Player, fields: seq<Field>)
    requires !Connected(origin) && Encode(fields).Success?
    ensures Reply(origin, fields) == Failure(NotConnected)
  {
  }

  /** PlayerCount: the online count for `ALL`, a known server's canonical name and count, else nothing. */
  lemma PlayerCountReplies(d: Proxy, origin: Player, target: string, rest: seq<Byte>)
    requires UtfBytes(target).Success?
    ensures Connected(origin) && target == "ALL" ==>
              SendsReply(PlayerCount(d, origin, UtfBytes(target).value + rest), origin,
                         [Utf("PlayerCount"), Utf("ALL"), Int(SizeOf(|d.onlinePlayers|))])
    ensures Connected(origin) && target != "ALL" && target in d.serversByName &&
            UtfBytes(d.serversByName[target].info.name).Success? ==>
              SendsReply(PlayerCount(d, origin, UtfBytes(target).value + rest), origin,
                         [Utf("PlayerCount"), Utf(d.serversByName[target].info.name),
                          Int(SizeOf(|d.serversByName[target].players|))])
    ensures target != "ALL" && target !in d.serversByName ==>
              PlayerCount(d, origin, UtfBytes(target).value + rest) == Success([])
  {
    ReadUtfBytes(target, rest);
    ShortUtf("PlayerCount");
    ShortUtf("ALL");
    if Connected(origin) {
      var fields := PlayerCountFields(d, target);
      if target == "ALL" || (target in d.serversByName && UtfBytes(d.serversByName[target].info.name).Success?) {
        ReplyReadBack(origin, fields);
      }
    }
  }

  /** PlayerList: the usernames joined with ", " for `ALL` or a known server, else nothing. */
  lemma PlayerListReplies(d: Proxy, origin: Player, target: string, rest: seq<Byte>)
    requires UtfBytes(target).Success?
    ensures Connected(origin) && target == "ALL" && UtfBytes(Join(Usernames(d.onlinePlayers))).Success? ==>
              SendsReply(PlayerList(d, origin, UtfBytes(target).value + rest), origin,
                         [Utf("PlayerList"), Utf("ALL"), Utf(Join(Usernames(d.onlinePlayers)))])
    ensures Connected(origin) && target != "ALL" && target in d.serversByName &&
            UtfBytes(d.serversByName[target].info.name).Success? &&
            UtfBytes(Join(Usernames(d.serversByName[target].players))).Success? ==>
              SendsReply(PlayerList(d, origin, UtfBytes(target).value + rest), origin,
                         [Utf("PlayerList"), Utf(d.serversByName[target].info.name),
                          Utf(Join(Usernames(d.serversByName[target].players)))])
    ensures target == "ALL" && UtfBytes(Join(Usernames(d.onlinePlayers))).Failure? ==>
              PlayerList(d, origin, UtfBytes(target).value + rest) == Failure(UtfTooLong)
    ensures target != "ALL" && target !in d.serversByName ==>
              PlayerList(d, origin, UtfBytes(target).value + rest) == Success([])
  {
    ReadUtfBytes(target, rest);
    ShortUtf("PlayerList");
    ShortUtf("ALL");
    var fields := PlayerListFields(d, target);
    if target == "ALL" {
      var names := Join(Usernames(d.onlinePlayers));
      if UtfBytes(names).Success? {
        if Connected(origin) {
          ReplyReadBack(origin, fields);
        }
      } else {
        assert fields == [Utf("PlayerList"), Utf("ALL")] + [Utf(names)];
        EncodeSnoc([Utf("PlayerList"), Utf("ALL")], Utf(names));
      }
    } else if target in d.serversByName && Connected(origin) {
      var rs := d.serversByName[target];
      if UtfBytes(rs.info.name).Success? && UtfBytes(Join(Usernames(rs.players))).Success? {
        ReplyReadBack(origin, fields);
      }
    }
  }

  /** GetServers: every registered server's name, joined with ", ". */
  lemma GetServersReplies(d: Proxy, origin: Player)
    requires Connected(origin) && UtfBytes(Join(ServerNames(d.registeredServers))).Success?
    ensures SendsReply(GetServers(d, origin), origin,
                       [Utf("GetServers"), Utf(Join(ServerNames(d.registeredServers)))])
  {
    ShortUtf("GetServers");
    ReplyReadBack(origin, [Utf("GetServers"), Utf(Join(ServerNames(d.registeredServers)))]);
  }

  // ---- StringJoiner ----

  /** Each later part, preceded by ", ". */
  function Separated(parts: seq<string>): string {
    if parts == [] then "" else ", " + parts[0] + Separated(parts[1..])
  }

  lemma {:induction false} SeparatedSnoc(parts: seq<string>, last: string)
    ensures Separated(parts + [last]) == Separated(parts) + ", " + last
  {
    if parts == [] {
      assert [] + [last] == [last];
      assert [last][1..] == [];
    } else {
      assert (parts + [last])[0] == parts[0];
      assert (parts + [last])[1..] == parts[1..] + [last];
      SeparatedSnoc(parts[1..], last);
    }
  }

  /** The joined text is the first part, then ", " before each later part, in order. */
  lemma {:induction false} JoinSeparates(parts: seq<string>)
    ensures parts == [] ==> Join(parts) == ""
    ensures parts != [] ==> Join(parts) == parts[0] + Separated(parts[1..])
  {
    if |parts| >= 2 {
      var init := parts[..|parts| - 1];
      var last := parts[|parts| - 1];
      JoinSeparates(init);
      SeparatedSnoc(init[1..], last);
      assert init[1..] + [last] == parts[1..];
    } else if |parts| == 1 {
      assert parts[1..] == [];
    }
  }

  // ---- addresses ----

  /** The host text a reply carries: the host string, or `unix://` and the socket path. */
  function HostText(a: Address): string {
    match a
    case Inet(host, _) => host
    case Unix(path) => "unix://" + path
  }

  /** The port a reply carries: the socket port, or 0 for a Unix domain socket. */
  function PortNumber(a: Address): Port {
    match a
    case Inet(_, port) => port
    case Unix(_) => 0
  }

  /** IP: the player's host and a 32-bit port. */
  lemma IpReplies(origin: Player)
    requires Connected(origin) && UtfBytes(HostText(origin.remoteAddress)).Success?
    ensures SendsReply(Ip(origin), origin,
                       [Utf("IP"), Utf(HostText(origin.remoteAddress)), Int(PortNumber(origin.remoteAddress))])
  {
    ShortUtf("IP");
    ReplyReadBack(origin, [Utf("IP"), Utf(HostText(origin.remoteAddress)), Int(PortNumber(origin.remoteAddress))]);
  }

  /** IPOther: the named player's canonical name, host and a 32-bit port. */
  lemma IpOtherReplies(d: Proxy, origin: Player, name: string, rest: seq<Byte>)
    requires UtfBytes(name).Success? && name in d.playersByName && Connected(origin)
    requires UtfBytes(d.playersByName[name].username).Success?
    requires UtfBytes(HostText(d.playersByName[name].remoteAddress)).Success?
    ensures SendsReply(IpOther(d, origin, UtfBytes(name).value + rest), origin,
                       [Utf("IPOther"), Utf(d.playersByName[name].username),
                        Utf(HostText(d.playersByName[name].remoteAddress)),
                        Int(PortNumber(d.playersByName[name].remoteAddress))])
  {
    ReadUtfBytes(name, rest);
    ShortUtf("IPOther");
    var p := d.playersByName[name];
    var fields := [Utf("IPOther"), Utf(p.username), Utf(HostText(p.remoteAddress)), Int(PortNumber(p.remoteAddress))];
    assert [Utf("IPOther"), Utf(p.username)] + AddressFields(p.remoteAddress, false) == fields;
    ReplyReadBack(origin, fields);
  }

  /** ServerIP: the server's canonical name, host and a 16-bit port. */
  lemma ServerIpReplies(d: Proxy, origin: Player, name: string, rest: seq<Byte>)
    requires UtfBytes(name).Success? && name in d.serversByName && Connected(origin)
    requires UtfBytes(d.serversByName[name].info.name).Success?
    requires UtfBytes(HostText(d.serversByName[name].info.address)).Success?
    ensures SendsReply(ServerIp(d, origin, UtfBytes(name).value + rest), origin,
                       [Utf("ServerIP"), Utf(d.serversByName[name].info.name),
                        Utf(HostText(d.serversByName[name].info.address)),
                        Short(PortNumber(d.serversByName[name].info.address))])
  {
    ReadUtfBytes(name, rest);
    ShortUtf("ServerIP");
    var info := d.serversByName[name].info;
    var fields := [Utf("ServerIP"), Utf(info.name), Utf(HostText(info.address)), Short(PortNumber(info.address))];
    assert [Utf("ServerIP"), Utf(info.name)] + AddressFields(info.address, true) == fields;
    ReplyReadBack(origin, fields);
  }

  /** GetServer: the name of the player's current server; without one it throws. */
  lemma GetServerReplies(origin: Player)
    ensures origin.connectedServer.None? ==> GetServer(origin) == Failure(NotConnected)
    ensures Connected(origin) && UtfBytes(origin.connectedServer.value.info.name).Success? ==>
            SendsReply(GetServer(origin), origin, [Utf("GetServer"), Utf(origin.connectedServer.value.info.name)])
  {
    if Connected(origin) && UtfBytes(origin.connectedServer.value.info.name).Success? {
      ShortUtf("GetServer");
      ReplyReadBack(origin, [Utf("GetServer"), Utf(origin.connectedServer.value.info.name)]);
    }
  }

  /** UUID: the player's own undashed UUID. */
  lemma UuidReplies(origin: Player)
    requires Connected(origin) && UtfBytes(origin.undashedUuid).Success?
    ensures SendsReply(Uuid(origin), origin, [Utf("UUID"), Utf(origin.undashedUuid)])
  {
    ShortUtf("UUID");
    ReplyReadBack(origin, [Utf("UUID"), Utf(origin.undashedUuid)]);
  }

  /** UUIDOther: the named player's canonical name and undashed UUID. */
  lemma UuidOtherReplies(d: Proxy, origin: Player, name: string, rest: seq<Byte>)
    requires UtfBytes(name).Success? && name in d.playersByName && Connected(origin)
    requires UtfBytes(d.playersByName[name].username).Success?
    requires UtfBytes(d.playersByName[name].undashedUuid).Success?
    ensures SendsReply(UuidOther(d, origin, UtfBytes(name).value + rest), origin,
                       [Utf("UUIDOther"), Utf(d.playersByName[name].username),
                        Utf(d.playersByName[name].undashedUuid)])
  {
    ReadUtfBytes(name, rest);
    ShortUtf("UUIDOther");
    var p := d.playersByName[name];
    ReplyReadBack(origin, [Utf("UUIDOther"), Utf(p.username), Utf(p.undashedUuid)]);
  }

  // ---- requests and messages ----

  /** Connect: a connection request for the sending player exactly when the server is known. */
  lemma ConnectRequests(d: Proxy, origin: Player, server: string, rest: seq<Byte>)
    requires UtfBytes(server).Success?
    ensures server in d.serversByName ==>
            Connect(d, origin, UtfBytes(server).value + rest) ==
            Success([ConnectRequest(origin.username, d.serversByName[server].info)])
    ensures server !in d.serversByName ==> Connect(d, origin, UtfBytes(server).value + rest) == Success([])
  {
    ReadUtfBytes(server, rest);
  }

  /** The component a Message or MessageRaw text becomes. */
  function TextOf(message: string, json: bool): Text {
    if json then Json(message) else LegacySection(message)
  }

  /**
   * Message/MessageRaw: `ALL` broadcasts even when a player is called `ALL`; a known player
   * gets the text under their canonical name; an unknown target gets nothing. A MessageRaw
   * text the JSON serializer rejects throws, whatever the target.
   */
  lemma MessageRoutes(d: Proxy, target: string, message: string, rest: seq<Byte>, json: bool)
    requires UtfBytes(target).Success? && UtfBytes(message).Success?
    ensures json && !d.isComponentJson(message) ==>
            Message(d, UtfBytes(target).value + UtfBytes(message).value + rest, json) == Failure(MalformedJson)
    ensures (!json || d.isComponentJson(message)) && target == "ALL" ==>
            Message(d, UtfBytes(target).value + UtfBytes(message).value + rest, json) ==
            Success([Broadcast(TextOf(message, json))])
    ensures (!json || d.isComponentJson(message)) && target != "ALL" && target in d.playersByName ==>
            Message(d, UtfBytes(target).value + UtfBytes(message).value + rest, json) ==
            Success([SendMessage(d.playersByName[target].username, TextOf(message, json))])
    ensures (!json || d.isComponentJson(message)) && target != "ALL" && target !in d.playersByName ==>
            Message(d, UtfBytes(target).value + UtfBytes(message).value + rest, json) == Success([])
  {
    ReadUtfBytes(target, UtfBytes(message).value + rest);
    ReadUtfBytes(message, rest);
    assert UtfBytes(target).value + UtfBytes(message).value + rest ==
           UtfBytes(target).value + (UtfBytes(message).value + rest);
  }

  /**
   * The order of reads and lookups shows when the second field is malformed: Message reads
   * its text before the lookup and throws for any target, KickPlayer reads the reason only
   * after finding the player and so throws exactly when the player is known.
   */
  lemma SecondFieldReadOrder(d: Proxy, name: string, rest: seq<Byte>, json: bool)
    requires UtfBytes(name).Success? && ReadUtf(rest).Failure?
    ensures Message(d, UtfBytes(name).value + rest, json) == Failure(ReadUtf(rest).error)
    ensures KickPlayer(d, UtfBytes(name).value + rest).Failure? <==> name in d.playersByName
    ensures name !in d.playersByName ==> KickPlayer(d, UtfBytes(name).value + rest) == Success([])
  {
    ReadUtfBytes(name, rest);
  }

  // ---- lookups that miss ----

  /** UUIDOther, IPOther, KickPlayer and ForwardToPlayer do nothing for an unknown player. */
  lemma UnknownPlayerIsNoOp(d: Proxy, origin: Player, name: string, rest: seq<Byte>)
    requires UtfBytes(name).Success? && name !in d.playersByName
    ensures UuidOther(d, origin, UtfBytes(name).value + rest) == Success([])
    ensures IpOther(d, origin, UtfBytes(name).value + rest) == Success([])
    ensures KickPlayer(d, UtfBytes(name).value + rest) == Success([])
    ensures ForwardToPlayer(d, UtfBytes(name).value + rest) == Success([])
  {
    ReadUtfBytes(name, rest);
  }

  /** ConnectOther connects only when both the player and the server are known. */
  lemma ConnectOtherNeedsBoth(d: Proxy, name: string, server: string, rest: seq<Byte>)
    requires UtfBytes(name).Success? && UtfBytes(server).Success?
    ensures ConnectOther(d, UtfBytes(name).value + UtfBytes(server).value + rest) ==
            Success(if name in d.playersByName && server in d.serversByName
                    then [ConnectRequest(d.playersByName[name].username, d.serversByName[server].info)]
                    else [])
  {
    ReadUtfBytes(name, UtfBytes(server).value + rest);
    ReadUtfBytes(server, rest);
    assert UtfBytes(name).value + UtfBytes(server).value + rest == UtfBytes(name).value + (UtfBytes(server).value + rest);
  }

  /** KickPlayer reads the reason only for a known player; a bad reason then throws. */
  lemma KickReadsReasonOnlyWhenFound(d: Proxy, name: string, rest: seq<Byte>)
    requires UtfBytes(name).Success? && name in d.playersByName
    ensures KickPlayer(d, UtfBytes(name).value + rest) ==
            match ReadUtf(rest)
            case Success((reason, _)) => Success([Disconnect(d.playersByName[name].username, LegacySection(reason))])
            case Failure(e) => Failure(e)
  {
    ReadUtfBytes(name, rest);
  }

  // ---- forwarding ----

  /** `ALL`/`ONLINE` reaches exactly the registered servers other than the player's current one. */
  lemma {:induction false} ForwardToServersTargets(servers: seq<RegisteredServer>, current: Option<ServerInfo>,
                                                   payload: seq<Byte>, e: Effect)
    ensures e in ForwardToServers(servers, current, payload) <==>
            exists i :: 0 <= i < |servers| && Some(servers[i].info) != current &&
                        e == ServerPluginMessage(servers[i].info, "BungeeCord", payload)
  {
    if servers != [] {
      var init := servers[..|servers| - 1];
      ForwardToServersTargets(init, current, payload, e);
      assert forall i :: 0 <= i < |init| ==> init[i] == servers[i];
    }
  }

  /** With no current server, every registered server receives the bytes, in order. */
  lemma {:induction false} ForwardWithoutCurrent(servers: seq<RegisteredServer>, payload: seq<Byte>)
    ensures ForwardToServers(servers, None, payload) ==
            seq(|servers|, i requires 0 <= i < |servers| => ServerPluginMessage(servers[i].info, "BungeeCord", payload))
  {
    if servers != [] {
      ForwardWithoutCurrent(servers[..|servers| - 1], payload);
    }
  }

  /** Forward sends the bytes after the target field, on the legacy channel, to the chosen servers. */
  lemma ForwardTargets(d: Proxy, origin: Player, target: string, rest: seq<Byte>)
    requires UtfBytes(target).Success?
    ensures target == "ALL" || target == "ONLINE" ==>
              Forward(d, origin, UtfBytes(target).value + rest) ==
              Success(ForwardToServers(d.registeredServers, CurrentServerInfo(origin), rest))
    ensures target != "ALL" && target != "ONLINE" && target in d.serversByName ==>
              Forward(d, origin, UtfBytes(target).value + rest) ==
              Success([ServerPluginMessage(d.serversByName[target].info, "BungeeCord", rest)])
    ensures target != "ALL" && target != "ONLINE" && target !in d.serversByName ==>
              Forward(d, origin, UtfBytes(target).value + rest) == Success([])
  {
    ReadUtfBytes(target, rest);
  }

  /** ForwardToPlayer sends the bytes after the name to that player's backend connection. */
  lemma ForwardToPlayerSendsRest(d: Proxy, name: string, rest: seq<Byte>)
    requires UtfBytes(name).Success? && name in d.playersByName && Connected(d.playersByName[name])
    ensures ForwardToPlayer(d, UtfBytes(name).value + rest) ==
            Success([ServerWrite(ConnectionOf(d.playersByName[name]).id,
                                 BungeeCordChannel(ConnectionOf(d.playersByName[name]).version), rest)])
  {
    ReadUtfBytes(name, rest);
  }
}
