/**
 * `StatusSessionHandler`: the server-list ping exchange on a status connection. The client
 * may ask for the status (or send a legacy ping) once; a second request is a protocol
 * violation. A status ping is answered by echoing it and closing; unknown bytes close the
 * connection.
 */
module StatusSession {
  import opened Wrappers
  import opened Lang

  /** What arrives on a status connection. */
  datatype Input =
    | LegacyPing(version: int)    // a pre-1.7 server-list ping
    | StatusRequest
    | StatusPing(randomId: int)
    | Unknown(bytes: seq<int>)    // a packet the status state does not know (`handleUnknown`)

  predicate IsRequest(input: Input) {
    input.LegacyPing? || input.StatusRequest?
  }

  /** What the handler asks of the proxy and the connection. */
  datatype Action =
    | LookupLegacyPing(version: int)  // `getPing`, answered later by closing with a legacy disconnect
    | LookupStatus                    // `getPacketResponse`, written back later
    | CloseWith(randomId: int)        // `closeWith` the same status ping
    | Close                           // `close(true)`

  predicate IsLookup(a: Action) {
    a.LookupLegacyPing? || a.LookupStatus?
  }

  const ExpectedAwaitingRequest := QuietRuntime("Expected connection to be awaiting status request")

  /** The effect of handling one input: the new `pingReceived`, the actions, what was thrown. */
  datatype Step = Step(pingReceived: bool, actions: seq<Action>, thrown: Option<Thrown>)

  function Handle(pingReceived: bool, input: Input): Step {
    match input
    case LegacyPing(version) =>
      if pingReceived then Step(true, [], Some(ExpectedAwaitingRequest))
      else Step(true, [LookupLegacyPing(version)], None)
    case StatusRequest =>
      if pingReceived then Step(true, [], Some(ExpectedAwaitingRequest))
      else Step(true, [LookupStatus], None)
    case StatusPing(randomId) => Step(pingReceived, [CloseWith(randomId)], None)
    case Unknown(_) => Step(pingReceived, [Close], None)
  }

  /** The first request of either kind is accepted and looked up; every later one throws and does nothing. */
  lemma RequestsOnce(pingReceived: bool, input: Input)
    requires IsRequest(input)
    ensures Handle(pingReceived, input).pingReceived
    ensures pingReceived <==> Handle(pingReceived, input).thrown == Some(ExpectedAwaitingRequest)
    ensures pingReceived <==> Handle(pingReceived, input).actions == []
    ensures !pingReceived ==> |Handle(pingReceived, input).actions| == 1 && IsLookup(Handle(pingReceived, input).actions[0])
  {
  }

  /** A status ping and unknown bytes close the connection and leave `pingReceived` alone. */
  lemma ClosingKeepsState(pingReceived: bool, input: Input)
    requires !IsRequest(input)
    ensures Handle(pingReceived, input).pingReceived == pingReceived
    ensures Handle(pingReceived, input).thrown == None
    ensures input.StatusPing? ==> Handle(pingReceived, input).actions == [CloseWith(input.randomId)]
    ensures input.Unknown? ==> Handle(pingReceived, input).actions == [Close]
  {
  }

  /** The state of a session after handling the inputs in turn, from a fresh handler. */
  datatype Session = Session(pingReceived: bool, actions: seq<Action>)

  function Run(inputs: seq<Input>): Session {
    if inputs == [] then Session(false, [])
    else
      var before := Run(inputs[..|inputs| - 1]);
      var step := Handle(before.pingReceived, inputs[|inputs| - 1]);
      Session(step.pingReceived, before.actions + step.actions)
  }

  function Lookups(actions: seq<Action>): nat {
    if actions == [] then 0
    else Lookups(actions[..|actions| - 1]) + (if IsLookup(actions[|actions| - 1]) then 1 else 0)
  }

  lemma {:induction false} LookupsAppend(a: seq<Action>, b: seq<Action>)
    ensures Lookups(a + b) == Lookups(a) + Lookups(b)
  {
    if b == [] {
      assert a + b == a;
    } else {
      LookupsAppend(a, b[..|b| - 1]);
      assert (a + b)[..|a + b| - 1] == a + b[..|b| - 1];
    }
  }

  /** After any sequence of inputs, `pingReceived` records whether a request has arrived. */
  lemma {:induction false} ReceivedIffRequested(inputs: seq<Input>)
    ensures Run(inputs).pingReceived <==> exists i :: 0 <= i < |inputs| && IsRequest(inputs[i])
  {
    if inputs != [] {
      var init := inputs[..|inputs| - 1];
      ReceivedIffRequested(init);
      assert forall i :: 0 <= i < |init| ==> init[i] == inputs[i];
    }
  }

  lemma LookupsOfStep(pingReceived: bool, input: Input)
    ensures Lookups(Handle(pingReceived, input).actions) == if !pingReceived && IsRequest(input) then 1 else 0
  {
    var actions := Handle(pingReceived, input).actions;
    if actions != [] {
      assert actions[..0] == [];
    }
  }

  /** Over any sequence of inputs, one ping lookup has been issued once a request arrived, none before. */
  lemma {:induction false} AtMostOneLookup(inputs: seq<Input>)
    ensures Lookups(Run(inputs).actions) == if Run(inputs).pingReceived then 1 else 0
  {
    if inputs != [] {
      var init := inputs[..|inputs| - 1];
      AtMostOneLookup(init);
      var before := Run(init);
      var step := Handle(before.pingReceived, inputs[|inputs| - 1]);
      LookupsAppend(before.actions, step.actions);
      LookupsOfStep(before.pingReceived, inputs[|inputs| - 1]);
    }
  }

  /** Once a request has been handled, the next request of either kind throws and issues no lookup. */
  lemma LaterRequestThrows(inputs: seq<Input>, i: nat, next: Input)
    requires i < |inputs| && IsRequest(inputs[i]) && IsRequest(next)
    ensures Handle(Run(inputs).pingReceived, next) == Step(true, [], Some(ExpectedAwaitingRequest))
    ensures Run(inputs + [next]) == Run(inputs)
  {
    ReceivedIffRequested(inputs);
    assert (inputs + [next])[..|inputs|] == inputs;
  }

  class StatusSessionHandler {
    var pingReceived: bool
    /** Everything the handler has asked for, oldest first. */
    var actions: seq<Action>

    constructor ()
      ensures !pingReceived && actions == []
    {
      pingReceived := false;
      actions := [];
    }

    /** `handle(LegacyPing)`. */
    method HandleLegacyPing(version: int) returns (r: Result<bool, Thrown>)
      modifies this
      ensures var step := Handle(old(pingReceived), LegacyPing(version));
              pingReceived == step.pingReceived && actions == old(actions) + step.actions &&
              (if step.thrown.Some? then r == Failure(step.thrown.value) else r == Success(true))
    {
      if pingReceived {
        return Failure(ExpectedAwaitingRequest);
      }
      pingReceived := true;
      actions := actions + [LookupLegacyPing(version)];
      r := Success(true);
    }

    /** `handle(StatusPing)`. */
    method HandleStatusPing(randomId: int) returns (handled: bool)
      modifies this
      ensures var step := Handle(old(pingReceived), StatusPing(randomId));
              pingReceived == step.pingReceived && actions == old(actions) + step.actions && handled
    {
      actions := actions + [CloseWith(randomId)];
      handled := true;
    }

    /** `handle(StatusRequest)`. */
    method HandleStatusRequest() returns (r: Result<bool, Thrown>)
      modifies this
      ensures var step := Handle(old(pingReceived), StatusRequest);
              pingReceived == step.pingReceived && actions == old(actions) + step.actions &&
              (if step.thrown.Some? then r == Failure(step.thrown.value) else r == Success(true))
    {
      if pingReceived {
        return Failure(ExpectedAwaitingRequest);
      }
      pingReceived := true;
      actions := actions + [LookupStatus];
      r := Success(true);
    }

    /** `handleUnknown`. */
    method HandleUnknown(bytes: seq<int>)
      modifies this
      ensures var step := Handle(old(pingReceived), Unknown(bytes));
              pingReceived == step.pingReceived && actions == old(actions) + step.actions
    {
      actions := actions + [Close];
    }
  }
}
