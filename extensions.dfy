/** The six emitters. Each asks the listener whether its own channel is
    enabled and, only then, publishes: the command emitters one payload per
    command of the batch, the connection-open emitters a single payload. The
    Before emitters hand out a fresh operation id (or the empty id when
    nobody listens); the After and Error emitters echo the id they are given. */
module DiagnosticListenerExtensions {
  import opened Payloads
  import opened Listeners
  import Channels

  // ---------------------------------------------------------------------------
  // Specification of the command emitters' output
  // ---------------------------------------------------------------------------

  /** The events a command emitter publishes on `channel` for `commands`, in
      list order; `build(k, c)` is the payload for the k-th command `c`. */
  function CommandEvents(channel: string, commands: seq<Command>, build: (nat, Command) -> Payload): (r: seq<Event>)
    ensures |r| == |commands|
    decreases |commands|
  {
    if commands == [] then []
    else
      var n := |commands| - 1;
      CommandEvents(channel, commands[..n], build) + [Event(channel, build(n, commands[n]))]
  }

  /** The k-th event is the k-th command's payload on `channel`. */
  lemma {:induction false} CommandEventsAt(channel: string, commands: seq<Command>, build: (nat, Command) -> Payload, k: nat)
    requires k < |commands|
    ensures CommandEvents(channel, commands, build)[k] == Event(channel, build(k, commands[k]))
  {
    var n := |commands| - 1;
    if k < n {
      CommandEventsAt(channel, commands[..n], build, k);
    }
  }

  /** Every event of a command emitter's batch is on that emitter's channel. */
  lemma CommandEventsOnChannel(channel: string, commands: seq<Command>, build: (nat, Command) -> Payload)
    ensures forall e | e in CommandEvents(channel, commands, build) :: e.name == channel
  {
    forall k | 0 <= k < |commands|
      ensures CommandEvents(channel, commands, build)[k].name == channel
    {
      CommandEventsAt(channel, commands, build, k);
    }
  }

  /** The payload `WriteCommandBefore` builds for each command. */
  function CommandBeforePayloads(operationId: Guid, operation: string): (nat, Command) -> Payload
  {
    (k: nat, c: Command) => CommandBefore(operationId, operation, CommandConnectionId(c), c)
  }

  /** The payload `WriteCommandAfter` builds for the k-th command;
      `timestamps(k)` is the clock sample taken for it. */
  function CommandAfterPayloads(operationId: Guid, operation: string, timestamps: nat -> int): (nat, Command) -> Payload
  {
    (k: nat, c: Command) => CommandAfter(operationId, operation, CommandConnectionId(c), c, None, timestamps(k))
  }

  /** The payload `WriteCommandError` builds for the k-th command. */
  function CommandErrorPayloads(operationId: Guid, operation: string, ex: Exception, timestamps: nat -> int): (nat, Command) -> Payload
  {
    (k: nat, c: Command) => CommandError(operationId, operation, CommandConnectionId(c), c, ex, timestamps(k))
  }

  /** What `WriteCommandBefore` publishes when its channel is enabled. */
  function CommandBeforeEvents(operationId: Guid, operation: string, commands: seq<Command>): seq<Event>
  {
    CommandEvents(Channels.SqlBeforeExecuteCommand, commands, CommandBeforePayloads(operationId, operation))
  }

  /** What `WriteCommandAfter` publishes when its channel is enabled. */
  function CommandAfterEvents(operationId: Guid, operation: string, commands: seq<Command>, timestamps: nat -> int): seq<Event>
  {
    CommandEvents(Channels.SqlAfterExecuteCommand, commands, CommandAfterPayloads(operationId, operation, timestamps))
  }

  /** What `WriteCommandError` publishes when its channel is enabled. */
  function CommandErrorEvents(operationId: Guid, operation: string, commands: seq<Command>, ex: Exception, timestamps: nat -> int): seq<Event>
  {
    CommandEvents(Channels.SqlErrorExecuteCommand, commands, CommandErrorPayloads(operationId, operation, ex, timestamps))
  }

  /** One Before event per command, all on the Before channel, all carrying
      the same operation id and label; the payload names the command and its
      connection id and has no timestamp. */
  lemma CommandBeforeEventsAt(operationId: Guid, operation: string, commands: seq<Command>, k: nat)
    requires k < |commands|
    ensures |CommandBeforeEvents(operationId, operation, commands)| == |commands|
    ensures var e := CommandBeforeEvents(operationId, operation, commands)[k];
      && e.name == Channels.SqlBeforeExecuteCommand
      && e.value.CommandBefore?
      && e.value.operationId == operationId
      && e.value.operation == operation
      && e.value.command == commands[k]
      && e.value.connectionId == CommandConnectionId(commands[k])
  {
    CommandEventsAt(Channels.SqlBeforeExecuteCommand, commands, CommandBeforePayloads(operationId, operation), k);
  }

  /** One After event per command, echoing the given id, with an empty
      statistics slot and the k-th clock sample. */
  lemma CommandAfterEventsAt(operationId: Guid, operation: string, commands: seq<Command>, timestamps: nat -> int, k: nat)
    requires k < |commands|
    ensures |CommandAfterEvents(operationId, operation, commands, timestamps)| == |commands|
    ensures var e := CommandAfterEvents(operationId, operation, commands, timestamps)[k];
      && e.name == Channels.SqlAfterExecuteCommand
      && e.value.CommandAfter?
      && e.value.operationId == operationId
      && e.value.operation == operation
      && e.value.command == commands[k]
      && e.value.connectionId == CommandConnectionId(commands[k])
      && e.value.statistics == None
      && e.value.timestamp == timestamps(k)
  {
    CommandEventsAt(Channels.SqlAfterExecuteCommand, commands, CommandAfterPayloads(operationId, operation, timestamps), k);
  }

  /** One Error event per command, echoing the given id and carrying the
      failure exactly as it was passed in. */
  lemma CommandErrorEventsAt(operationId: Guid, operation: string, commands: seq<Command>, ex: Exception, timestamps: nat -> int, k: nat)
    requires k < |commands|
    ensures |CommandErrorEvents(operationId, operation, commands, ex, timestamps)| == |commands|
    ensures var e := CommandErrorEvents(operationId, operation, commands, ex, timestamps)[k];
      && e.name == Channels.SqlErrorExecuteCommand
      && e.value.CommandError?
      && e.value.operationId == operationId
      && e.value.operation == operation
      && e.value.command == commands[k]
      && e.value.connectionId == CommandConnectionId(commands[k])
      && e.value.exception == ex
      && e.value.timestamp == timestamps(k)
  {
    CommandEventsAt(Channels.SqlErrorExecuteCommand, commands, CommandErrorPayloads(operationId, operation, ex, timestamps), k);
  }

  // ---------------------------------------------------------------------------
  // Events seen on one channel
  // ---------------------------------------------------------------------------

  /** The events of `log` written on `channel`, in order: the events an
      observer picks out of the stream by their name. */
  function On(log: seq<Event>, channel: string): (r: seq<Event>)
    ensures |r| <= |log|
    ensures forall e | e in r :: e in log && e.name == channel
    decreases |log|
  {
    if log == [] then []
    else
      var n := |log| - 1;
      On(log[..n], channel) + (if log[n].name == channel then [log[n]] else [])
  }

  /** Filtering by channel distributes over appending to the log. */
  lemma {:induction false} OnAppend(a: seq<Event>, b: seq<Event>, channel: string)
    ensures On(a + b, channel) == On(a, channel) + On(b, channel)
    decreases |b|
  {
    if b == [] {
      assert a + b == a;
    } else {
      var n := |b| - 1;
      assert (a + b)[..|a + b| - 1] == a + b[..n];
      OnAppend(a, b[..n], channel);
    }
  }

  /** A command emitter's batch is seen in full on its own channel and not at
      all on any other. */
  lemma {:induction false} OnCommandEvents(channel: string, commands: seq<Command>, build: (nat, Command) -> Payload, other: string)
    ensures On(CommandEvents(channel, commands, build), other)
         == if other == channel then CommandEvents(channel, commands, build) else []
    decreases |commands|
  {
    if commands != [] {
      var n := |commands| - 1;
      OnAppend(CommandEvents(channel, commands[..n], build), [Event(channel, build(n, commands[n]))], other);
      OnCommandEvents(channel, commands[..n], build, other);
    }
  }

  /** Two batches published one after the other on distinct channels, each
      only when `first` (resp. `second`) holds: each channel sees exactly its
      own batch, and a third channel sees nothing. */
  lemma TwoBatchesSeen(channel1: string, channel2: string, other: string, commands: seq<Command>,
                       build1: (nat, Command) -> Payload, build2: (nat, Command) -> Payload, first: bool, second: bool)
    requires channel1 != channel2 && other != channel1 && other != channel2
    ensures var log := (if first then CommandEvents(channel1, commands, build1) else [])
                     + (if second then CommandEvents(channel2, commands, build2) else []);
      && |On(log, channel1)| == (if first then |commands| else 0)
      && |On(log, channel2)| == (if second then |commands| else 0)
      && On(log, other) == []
  {
    var a := if first then CommandEvents(channel1, commands, build1) else [];
    var b := if second then CommandEvents(channel2, commands, build2) else [];
    OnAppend(a, b, channel1);
    OnAppend(a, b, channel2);
    OnAppend(a, b, other);
    OnCommandEvents(channel1, commands, build1, channel1);
    OnCommandEvents(channel1, commands, build1, channel2);
    OnCommandEvents(channel1, commands, build1, other);
    OnCommandEvents(channel2, commands, build2, channel1);
    OnCommandEvents(channel2, commands, build2, channel2);
    OnCommandEvents(channel2, commands, build2, other);
  }

  /** Every event of every phase's batch carries the operation id it was built with. */
  lemma CommandPhasesCarryId(operationId: Guid, operation: string, commands: seq<Command>, ex: Exception,
                             timestamps: nat -> int)
    ensures forall e | e in CommandBeforeEvents(operationId, operation, commands) :: e.value.operationId == operationId
    ensures forall e | e in CommandAfterEvents(operationId, operation, commands, timestamps) :: e.value.operationId == operationId
    ensures forall e | e in CommandErrorEvents(operationId, operation, commands, ex, timestamps) :: e.value.operationId == operationId
  {
    forall k | 0 <= k < |commands|
      ensures CommandBeforeEvents(operationId, operation, commands)[k].value.operationId == operationId
      ensures CommandAfterEvents(operationId, operation, commands, timestamps)[k].value.operationId == operationId
      ensures CommandErrorEvents(operationId, operation, commands, ex, timestamps)[k].value.operationId == operationId
    {
      CommandBeforeEventsAt(operationId, operation, commands, k);
      CommandAfterEventsAt(operationId, operation, commands, timestamps, k);
      CommandErrorEventsAt(operationId, operation, commands, ex, timestamps, k);
    }
  }

  // ---------------------------------------------------------------------------
  // The emitters
  // ---------------------------------------------------------------------------

  /** Announces that a batch of commands is about to run. `newGuid` is the
      value `Guid.NewGuid()` would return; it is used only when someone
      listens. */
  method WriteCommandBefore(listener: DiagnosticListener, sqlCommands: seq<Command>, newGuid: Guid,
                            operation: string := Channels.SqlClientExecuteScalarName)
    returns (operationId: Guid)
    requires newGuid != Guid.Empty
    modifies listener`log
    ensures listener.IsEnabled(Channels.SqlBeforeExecuteCommand) ==>
      operationId == newGuid &&
      listener.log == old(listener.log) + CommandBeforeEvents(operationId, operation, sqlCommands)
    ensures !listener.IsEnabled(Channels.SqlBeforeExecuteCommand) ==>
      operationId == Guid.Empty && listener.log == old(listener.log)
  {
    if listener.IsEnabled(Channels.SqlBeforeExecuteCommand) {
      operationId := newGuid;
      for i := 0 to |sqlCommands|
        invariant listener.log == old(listener.log) + CommandBeforeEvents(operationId, operation, sqlCommands[..i])
      {
        var command := sqlCommands[i];
        listener.Write(Channels.SqlBeforeExecuteCommand,
          CommandBefore(operationId, operation, CommandConnectionId(command), command));
        assert sqlCommands[..i + 1][..i] == sqlCommands[..i];
      }
      assert sqlCommands[..|sqlCommands|] == sqlCommands;
      return;
    }
    return Guid.Empty;
  }

  /** Reports that a batch of commands completed, under the id the caller
      passes in. `timestamps(k)` is the clock sample taken for the k-th write. */
  method WriteCommandAfter(listener: DiagnosticListener, operationId: Guid, sqlCommands: seq<Command>,
                           timestamps: nat -> int, operation: string := Channels.SqlClientExecuteScalarName)
    modifies listener`log
    ensures listener.log == old(listener.log) +
      if listener.IsEnabled(Channels.SqlAfterExecuteCommand)
      then CommandAfterEvents(operationId, operation, sqlCommands, timestamps)
      else []
  {
    if listener.IsEnabled(Channels.SqlAfterExecuteCommand) {
      for i := 0 to |sqlCommands|
        invariant listener.log == old(listener.log) + CommandAfterEvents(operationId, operation, sqlCommands[..i], timestamps)
      {
        var command := sqlCommands[i];
        listener.Write(Channels.SqlAfterExecuteCommand,
          CommandAfter(operationId, operation, CommandConnectionId(command), command, None, timestamps(i)));
        assert sqlCommands[..i + 1][..i] == sqlCommands[..i];
      }
      assert sqlCommands[..|sqlCommands|] == sqlCommands;
    }
  }

  /** Reports that a batch of commands failed with `ex`, under the id the
      caller passes in. */
  method WriteCommandError(listener: DiagnosticListener, operationId: Guid, sqlCommands: seq<Command>, ex: Exception,
                           timestamps: nat -> int, operation: string := Channels.SqlClientExecuteScalarName)
    modifies listener`log
    ensures listener.log == old(listener.log) +
      if listener.IsEnabled(Channels.SqlErrorExecuteCommand)
      then CommandErrorEvents(operationId, operation, sqlCommands, ex, timestamps)
      else []
  {
    if listener.IsEnabled(Channels.SqlErrorExecuteCommand) {
      for i := 0 to |sqlCommands|
        invariant listener.log == old(listener.log) + CommandErrorEvents(operationId, operation, sqlCommands[..i], ex, timestamps)
      {
        var command := sqlCommands[i];
        listener.Write(Channels.SqlErrorExecuteCommand,
          CommandError(operationId, operation, CommandConnectionId(command), command, ex, timestamps(i)));
        assert sqlCommands[..i + 1][..i] == sqlCommands[..i];
      }
      assert sqlCommands[..|sqlCommands|] == sqlCommands;
    }
  }

  /** Announces that `sqlConnection` is about to open. */
  method WriteConnectionOpenBefore(listener: DiagnosticListener, sqlConnection: Connection, newGuid: Guid,
                                   timestamp: int, operation: string := Channels.SqlClientOpenConnectionName)
    returns (operationId: Guid)
    requires newGuid != Guid.Empty
    modifies listener`log
    ensures listener.IsEnabled(Channels.SqlBeforeOpenConnection) ==>
      operationId == newGuid &&
      listener.log == old(listener.log) +
        [Event(Channels.SqlBeforeOpenConnection, OpenBefore(operationId, operation, sqlConnection, timestamp))]
    ensures !listener.IsEnabled(Channels.SqlBeforeOpenConnection) ==>
      operationId == Guid.Empty && listener.log == old(listener.log)
  {
    if listener.IsEnabled(Channels.SqlBeforeOpenConnection) {
      operationId := newGuid;
      listener.Write(Channels.SqlBeforeOpenConnection, OpenBefore(operationId, operation, sqlConnection, timestamp));
      return;
    } else {
      return Guid.Empty;
    }
  }

  /** Reports that `sqlConnection` opened, under the id the caller passes in. */
  method WriteConnectionOpenAfter(listener: DiagnosticListener, operationId: Guid, sqlConnection: Connection,
                                  timestamp: int, operation: string := Channels.SqlClientOpenConnectionName)
    modifies listener`log
    ensures listener.log == old(listener.log) +
      if listener.IsEnabled(Channels.SqlAfterOpenConnection)
      then [Event(Channels.SqlAfterOpenConnection,
              OpenAfter(operationId, operation, GetConnectionId(sqlConnection), sqlConnection, None, timestamp))]
      else []
  {
    if listener.IsEnabled(Channels.SqlAfterOpenConnection) {
      listener.Write(Channels.SqlAfterOpenConnection,
        OpenAfter(operationId, operation, GetConnectionId(sqlConnection), sqlConnection, None, timestamp));
    }
  }

  /** Reports that opening `sqlConnection` failed with `ex`, under the id the
      caller passes in. */
  method WriteConnectionOpenError(listener: DiagnosticListener, operationId: Guid, sqlConnection: Connection,
                                  ex: Exception, timestamp: int, operation: string := Channels.SqlClientOpenConnectionName)
    modifies listener`log
    ensures listener.log == old(listener.log) +
      if listener.IsEnabled(Channels.SqlErrorOpenConnection)
      then [Event(Channels.SqlErrorOpenConnection,
              OpenError(operationId, operation, GetConnectionId(sqlConnection), sqlConnection, ex, timestamp))]
      else []
  {
    if listener.IsEnabled(Channels.SqlErrorOpenConnection) {
      listener.Write(Channels.SqlErrorOpenConnection,
        OpenError(operationId, operation, GetConnectionId(sqlConnection), sqlConnection, ex, timestamp));
    }
  }
}
