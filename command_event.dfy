/**
 * `CommandExecuteEvent` and its `CommandResult`: the decision table a plugin picks from
 * (allow, deny, forward to the backend server, replace the command) and the event whose
 * result field it sets.
 */
module CommandEvent {
  import opened Wrappers
  import opened Lang

  /** Who ran the command; opaque here. */
  datatype CommandSource = CommandSource(name: string)

  /**
   * A result: whether the proxy runs the command (`status`), whether it goes to the
   * backend server instead (`forward`), and the command text to use instead, if any.
   */
  datatype CommandResult = CommandResult(status: bool, forward: bool, command: Option<string>)
  {
    function Allowed(): bool { status }
    function IsForwardToServer(): bool { forward }
    function GetCommand(): Option<string> { command }
  }

  const Allowed := CommandResult(true, false, None)
  const Denied := CommandResult(false, false, None)
  const ForwardToServerResult := CommandResult(false, true, None)

  /** `allow()`: the proxy runs the command as typed. */
  function Allow(): (r: CommandResult)
    ensures r.Allowed() && !r.IsForwardToServer() && r.GetCommand() == None
  {
    Allowed
  }

  /** `deny()`: nothing runs the command. */
  function Deny(): (r: CommandResult)
    ensures !r.Allowed() && !r.IsForwardToServer() && r.GetCommand() == None
  {
    Denied
  }

  /** `forwardToServer()`: the backend server gets the command as typed. */
  function ForwardToServer(): (r: CommandResult)
    ensures !r.Allowed() && r.IsForwardToServer() && r.GetCommand() == None
  {
    ForwardToServerResult
  }

  /** `forwardToServer(newCommand)`: the backend server gets `newCommand`; null is rejected. */
  function ForwardToServerWith(newCommand: Option<string>): (r: Result<CommandResult, Thrown>)
    ensures newCommand == None <==> r == Failure(NullPointer("newCommand"))
    ensures r.Success? ==> !r.value.Allowed() && r.value.IsForwardToServer() && r.value.GetCommand() == newCommand
  {
    match newCommand
    case None => Failure(NullPointer("newCommand"))
    case Some(c) => Success(CommandResult(false, true, Some(c)))
  }

  /** `command(newCommand)`: the proxy runs `newCommand` instead; null is rejected. */
  function Command(newCommand: Option<string>): (r: Result<CommandResult, Thrown>)
    ensures newCommand == None <==> r == Failure(NullPointer("newCommand"))
    ensures r.Success? ==> r.value.Allowed() && !r.value.IsForwardToServer() && r.value.GetCommand() == newCommand
  {
    match newCommand
    case None => Failure(NullPointer("newCommand"))
    case Some(c) => Success(CommandResult(true, false, Some(c)))
  }

  /** `CommandResult.toString()`. */
  function ToString(r: CommandResult): (s: string)
    ensures s == "allowed" <==> r.Allowed()
    ensures s == "denied" <==> !r.Allowed()
  {
    if r.status then "allowed" else "denied"
  }

  /** A result some factory returns. */
  ghost predicate Produced(r: CommandResult) {
    r == Allow() || r == Deny() || r == ForwardToServer() ||
    ForwardToServerWith(r.command) == Success(r) || Command(r.command) == Success(r)
  }

  /** No factory asks both to run the command on the proxy and to forward it. */
  lemma NeverAllowedAndForwarded(r: CommandResult)
    requires Produced(r)
    ensures !(r.Allowed() && r.IsForwardToServer())
    ensures r.IsForwardToServer() ==> !r.Allowed()
  {
  }

  class CommandExecuteEvent {
    const commandSource: CommandSource
    const command: string
    var result: CommandResult

    constructor (commandSource: CommandSource, command: string)
      ensures this.commandSource == commandSource && this.command == command && result == Allow()
    {
      this.commandSource := commandSource;
      this.command := command;
      result := Allowed;
    }

    /** `setResult`: null is rejected and leaves the result as it was. */
    method SetResult(result: Option<CommandResult>) returns (r: Result<(), Thrown>)
      modifies this
      ensures result == None <==> r == Failure(NullPointer("result"))
      ensures result == None ==> this.result == old(this.result)
      ensures result != None ==> this.result == result.value
    {
      if result == None {
        return Failure(NullPointer("result"));
      }
      this.result := result.value;
      r := Success(());
    }
  }

  /** `new CommandExecuteEvent(commandSource, command)`: both checked for null, in that order. */
  method NewCommandExecuteEvent(commandSource: Option<CommandSource>, command: Option<string>)
    returns (r: Result<CommandExecuteEvent, Thrown>)
    ensures commandSource == None ==> r == Failure(NullPointer("commandSource"))
    ensures commandSource != None && command == None ==> r == Failure(NullPointer("command"))
    ensures commandSource != None && command != None ==>
              r.Success? && fresh(r.value) && r.value.commandSource == commandSource.value &&
              r.value.command == command.value && r.value.result == Allow()
  {
    if commandSource == None {
      return Failure(NullPointer("commandSource"));
    }
    if command == None {
      return Failure(NullPointer("command"));
    }
    var event := new CommandExecuteEvent(commandSource.value, command.value);
    r := Success(event);
  }
}
