/**
 * `KickedFromServerEvent`: fired when a backend server kicks a player; its result tells
 * the proxy to disconnect the player, redirect them, or only notify them.
 */
module KickEvent {
  import opened Wrappers
  import opened Lang

  /** The player and the registered server involved; opaque here. */
  datatype PlayerRef = PlayerRef(name: string)
  datatype ServerRef = ServerRef(name: string)

  /** The three `ServerKickResult` implementations. */
  datatype ServerKickResult =
    | DisconnectPlayer(reason: Component)
    | RedirectPlayer(server: ServerRef, message: Option<Component>)
    | Notify(reason: Component)  // `reason()` returns the message

  /** `allowed()`: only disconnecting lets the kick go through. */
  function Allowed(r: ServerKickResult): bool {
    match r
    case DisconnectPlayer(_) => true
    case RedirectPlayer(_, _) => false
    case Notify(_) => false
  }

  /** `DisconnectPlayer.disconnect(reason)`: the reason must not be null. */
  function Disconnect(reason: Option<Component>): (r: Result<ServerKickResult, Thrown>)
    ensures reason == None <==> r == Failure(NullPointer("component"))
    ensures r.Success? ==> Allowed(r.value) && r.value.DisconnectPlayer? && Some(r.value.reason) == reason
  {
    match reason
    case None => Failure(NullPointer("component"))
    case Some(c) => Success(DisconnectPlayer(c))
  }

  /** `RedirectPlayer.redirect(server, message)`: the server must not be null; the message is kept as given. */
  function RedirectWith(server: Option<ServerRef>, message: Option<Component>): (r: Result<ServerKickResult, Thrown>)
    ensures server == None <==> r == Failure(NullPointer("server"))
    ensures r.Success? ==> !Allowed(r.value) && r.value.RedirectPlayer? &&
                           Some(r.value.server) == server && r.value.message == message
  {
    match server
    case None => Failure(NullPointer("server"))
    case Some(s) => Success(RedirectPlayer(s, message))
  }

  /** `RedirectPlayer.redirect(server)`: no message of its own; the kick reason is shown. */
  function Redirect(server: Option<ServerRef>): (r: Result<ServerKickResult, Thrown>)
    ensures server == None <==> r == Failure(NullPointer("server"))
    ensures r.Success? ==> !Allowed(r.value) && r.value.RedirectPlayer? &&
                           Some(r.value.server) == server && r.value.message == None
  {
    RedirectWith(server, None)
  }

  /** `Notify.notify(message)`: the message must not be null. */
  function NotifyWith(message: Option<Component>): (r: Result<ServerKickResult, Thrown>)
    ensures message == None <==> r == Failure(NullPointer("message"))
    ensures r.Success? ==> !Allowed(r.value) && r.value.Notify? && Some(r.value.reason) == message
  {
    match message
    case None => Failure(NullPointer("message"))
    case Some(m) => Success(Notify(m))
  }

  /** Of the three kinds of result, exactly the disconnect is allowed. */
  lemma AllowedOnlyForDisconnect(r: ServerKickResult)
    ensures Allowed(r) <==> r.DisconnectPlayer?
  {
  }

  class KickedFromServerEvent {
    const player: PlayerRef
    const server: ServerRef
    const originalReason: Option<Component>
    const duringServerConnect: bool
    var result: ServerKickResult

    constructor (player: PlayerRef, server: ServerRef, originalReason: Option<Component>,
                 duringServerConnect: bool, result: ServerKickResult)
      ensures this.player == player && this.server == server && this.originalReason == originalReason
      ensures this.duringServerConnect == duringServerConnect && this.result == result
    {
      this.player := player;
      this.server := server;
      this.originalReason := originalReason;
      this.duringServerConnect := duringServerConnect;
      this.result := result;
    }

    function KickedDuringServerConnect(): bool {
      duringServerConnect
    }

    /** The deprecated name of `kickedDuringServerConnect`, with the same answer. */
    function KickedDuringLogin(): (b: bool)
      ensures b == KickedDuringServerConnect()
    {
      duringServerConnect
    }

    /** `setResult`: null is rejected; only the result changes. */
    method SetResult(result: Option<ServerKickResult>) returns (r: Result<(), Thrown>)
      modifies this
      ensures result == None <==> r == Failure(NullPointer("result"))
      ensures result == None ==> this.result == old(this.result)
      ensures result != None ==> this.result == result.value
    {
      if result == None {
        return Failure(NullPointer("result"));
      }
      this.result := result.value;
      r := Success(());
    }
  }

  /**
   * `new KickedFromServerEvent(...)`: player, server and result are checked for null in
   * that order; the kick reason may be null.
   */
  method NewKickedFromServerEvent(player: Option<PlayerRef>, server: Option<ServerRef>,
                                  originalReason: Option<Component>, duringServerConnect: bool,
                                  result: Option<ServerKickResult>)
    returns (r: Result<KickedFromServerEvent, Thrown>)
    ensures player == None ==> r == Failure(NullPointer("player"))
    ensures player != None && server == None ==> r == Failure(NullPointer("server"))
    ensures player != None && server != None && result == None ==> r == Failure(NullPointer("result"))
    ensures player != None && server != None && result != None ==>
              r.Success? && fresh(r.value) && r.value.player == player.value &&
              r.value.server == server.value && r.value.originalReason == originalReason &&
              r.value.duringServerConnect == duringServerConnect && r.value.result == result.value
  {
    if player == None {
      return Failure(NullPointer("player"));
    }
    if server == None {
      return Failure(NullPointer("server"));
    }
    if result == None {
      return Failure(NullPointer("result"));
    }
    var event := new KickedFromServerEvent(player.value, server.value, originalReason, duringServerConnect, result.value);
    r := Success(event);
  }
}
