/** What a caller of the emitters observes. Each method plays a caller that
    brackets one operation with a Before emitter and one terminal emitter on
    a fresh listener, and states what the published stream then contains. A
    subscriber whose predicate accepts every channel enables all six names. */
module DiagnosticScenarios {
  import opened Payloads
  import opened Listeners
  import opened DiagnosticListenerExtensions
  import Channels

  /** A successful single command on an open connection: a Before and an
      After event on their channels, sharing one non-empty id, labelled
      "ExecuteScalar", naming the command and the server thread, and the
      After event with an empty statistics slot. */
  method SendSqlExecuteCommand(command: Command, newGuid: Guid, timestamps: nat -> int) returns (events: seq<Event>)
    requires newGuid != Guid.Empty
    requires command.connection.Some? && command.connection.value.state == Open
    ensures |events| == 2
    ensures events[0].name == "MySql.Data.MySqlClient.WriteCommandBefore"
    ensures events[1].name == "MySql.Data.MySqlClient.WriteCommandAfter"
    ensures events[0].value.CommandBefore? && events[1].value.CommandAfter?
    ensures events[0].value.operationId != Guid.Empty
    ensures events[1].value.operationId == events[0].value.operationId
    ensures events[0].value.operation == "ExecuteScalar" && events[1].value.operation == "ExecuteScalar"
    ensures events[0].value.command == command && events[1].value.command == command
    ensures events[0].value.connectionId == Some(command.connection.value.serverThread)
    ensures events[1].value.connectionId == Some(command.connection.value.serverThread)
    ensures events[1].value.statistics == None
  {
    var listener := new DiagnosticListener(Channels.DiagnosticListenerName, Channels.AllChannels);
    var operationId := WriteCommandBefore(listener, [command], newGuid);
    WriteCommandAfter(listener, operationId, [command], timestamps);
    events := listener.log;
    Channels.CommandChannelLiterals();
    CommandBeforeEventsAt(operationId, "ExecuteScalar", [command], 0);
    CommandAfterEventsAt(operationId, "ExecuteScalar", [command], timestamps, 0);
  }

  /** A failing single command: a Before and an Error event sharing one
      non-empty id, the Error event carrying the failure verbatim. */
  method SendSqlErrorExecuteCommand(command: Command, ex: Exception, newGuid: Guid, timestamps: nat -> int)
    returns (events: seq<Event>)
    requires newGuid != Guid.Empty
    ensures |events| == 2
    ensures events[0].name == "MySql.Data.MySqlClient.WriteCommandBefore"
    ensures events[1].name == "MySql.Data.MySqlClient.WriteCommandError"
    ensures events[0].value.CommandBefore? && events[1].value.CommandError?
    ensures events[0].value.operationId != Guid.Empty
    ensures events[1].value.operationId == events[0].value.operationId
    ensures events[1].value.operation == "ExecuteScalar"
    ensures events[1].value.command == command
    ensures events[1].value.connectionId == CommandConnectionId(command)
    ensures events[1].value.exception == ex
  {
    var listener := new DiagnosticListener(Channels.DiagnosticListenerName, Channels.AllChannels);
    var operationId := WriteCommandBefore(listener, [command], newGuid);
    WriteCommandError(listener, operationId, [command], ex, timestamps);
    events := listener.log;
    Channels.CommandChannelLiterals();
    CommandBeforeEventsAt(operationId, "ExecuteScalar", [command], 0);
    CommandErrorEventsAt(operationId, "ExecuteScalar", [command], ex, timestamps, 0);
  }

  /** Opening a connection: the Before event names the connection as it was
      before opening; the After event, published once it is open, carries
      the same id, the "Open" label, the server thread and an empty
      statistics slot. */
  method SendSqlOpenConnection(initial: Connection, established: Connection, newGuid: Guid, before: int, after: int)
    returns (events: seq<Event>)
    requires newGuid != Guid.Empty
    requires established.handle == initial.handle && established.state == Open
    ensures |events| == 2
    ensures events[0] == Event("MySql.Data.MySqlClient.WriteConnectionOpenBefore",
                               OpenBefore(newGuid, "Open", initial, before))
    ensures events[1].name == "MySql.Data.MySqlClient.WriteConnectionOpenAfter"
    ensures events[1].value.OpenAfter?
    ensures events[1].value.operationId == events[0].value.operationId
    ensures events[1].value.operation == "Open"
    ensures events[1].value.connection.handle == events[0].value.connection.handle
    ensures events[1].value.connectionId == Some(established.serverThread)
    ensures events[1].value.statistics == None
  {
    var listener := new DiagnosticListener(Channels.DiagnosticListenerName, Channels.AllChannels);
    var operationId := WriteConnectionOpenBefore(listener, initial, newGuid, before);
    WriteConnectionOpenAfter(listener, operationId, established, after);
    events := listener.log;
    Channels.OpenChannelLiterals();
  }

  /** A connection that fails to open: the Error event carries the Before
      event's id, no connection id (the connection never reached the open
      state) and the failure verbatim. */
  method SendSqlErrorOpenConnection(connection: Connection, ex: Exception, newGuid: Guid, before: int, after: int)
    returns (events: seq<Event>)
    requires newGuid != Guid.Empty
    requires connection.state != Open
    ensures |events| == 2
    ensures events[0] == Event("MySql.Data.MySqlClient.WriteConnectionOpenBefore",
                               OpenBefore(newGuid, "Open", connection, before))
    ensures events[1] == Event("MySql.Data.MySqlClient.WriteConnectionOpenError",
                               OpenError(newGuid, "Open", None, connection, ex, after))
  {
    var listener := new DiagnosticListener(Channels.DiagnosticListenerName, Channels.AllChannels);
    var operationId := WriteConnectionOpenBefore(listener, connection, newGuid, before);
    WriteConnectionOpenError(listener, operationId, connection, ex, after);
    events := listener.log;
    Channels.OpenChannelLiterals();
  }

  /** A batch of commands bracketed by Before and one terminal emitter
      (After when `failure` is None, Error otherwise), under any set of
      enabled channels. Each channel receives one event per command exactly
      when it is enabled and is the phase that ran; every event carries the
      id the Before emitter returned, which is the empty id when the Before
      channel is not enabled, even if the terminal channel is. */
  method ExecuteBatch(enabled: set<string>, commands: seq<Command>, failure: Option<Exception>,
                      newGuid: Guid, timestamps: nat -> int)
    returns (operationId: Guid, events: seq<Event>)
    requires newGuid != Guid.Empty
    ensures operationId == if Channels.SqlBeforeExecuteCommand in enabled then newGuid else Guid.Empty
    ensures |On(events, Channels.SqlBeforeExecuteCommand)|
         == if Channels.SqlBeforeExecuteCommand in enabled then |commands| else 0
    ensures |On(events, Channels.SqlAfterExecuteCommand)|
         == if failure.None? && Channels.SqlAfterExecuteCommand in enabled then |commands| else 0
    ensures |On(events, Channels.SqlErrorExecuteCommand)|
         == if failure.Some? && Channels.SqlErrorExecuteCommand in enabled then |commands| else 0
    ensures forall e | e in events :: e.value.operationId == operationId
    ensures forall e | e in events ::
      e.name in {Channels.SqlBeforeExecuteCommand, Channels.SqlAfterExecuteCommand, Channels.SqlErrorExecuteCommand}
  {
    var op := Channels.SqlClientExecuteScalarName;
    var ex := if failure.Some? then failure.value else Exception(0, "");
    var listener := new DiagnosticListener(Channels.DiagnosticListenerName, enabled);
    operationId := WriteCommandBefore(listener, commands, newGuid);
    var announced := listener.log;
    // the terminal phase that runs, its channel, and the channel left silent
    var channel, silent, build;
    if failure.None? {
      WriteCommandAfter(listener, operationId, commands, timestamps);
      channel, silent := Channels.SqlAfterExecuteCommand, Channels.SqlErrorExecuteCommand;
      build := CommandAfterPayloads(operationId, op, timestamps);
    } else {
      WriteCommandError(listener, operationId, commands, ex, timestamps);
      channel, silent := Channels.SqlErrorExecuteCommand, Channels.SqlAfterExecuteCommand;
      build := CommandErrorPayloads(operationId, op, ex, timestamps);
    }
    events := listener.log;
    var first := Channels.SqlBeforeExecuteCommand in enabled;
    var second := channel in enabled;
    assert events == (if first then CommandEvents(Channels.SqlBeforeExecuteCommand, commands, CommandBeforePayloads(operationId, op)) else [])
                   + (if second then CommandEvents(channel, commands, build) else []);

    Channels.ChannelNameInjective(Channels.WriteCommandBefore, Channels.WriteCommandAfter);
    Channels.ChannelNameInjective(Channels.WriteCommandBefore, Channels.WriteCommandError);
    Channels.ChannelNameInjective(Channels.WriteCommandAfter, Channels.WriteCommandError);
    CommandPhasesCarryId(operationId, op, commands, ex, timestamps);
    BracketedBatch(Channels.SqlBeforeExecuteCommand, channel, silent, commands,
      CommandBeforePayloads(operationId, op), build, first, second, operationId);
  }

  /** A Before batch followed by a terminal batch, each published only when
      `first` (resp. `second`) holds, on distinct channels: each of the two
      channels sees one event per command when its batch was published and
      none otherwise, a third channel sees nothing, and every event is on one
      of the two channels and carries the operation id both batches carry. */
  lemma BracketedBatch(before: string, terminal: string, silent: string, commands: seq<Command>,
                       build1: (nat, Command) -> Payload, build2: (nat, Command) -> Payload,
                       first: bool, second: bool, operationId: Guid)
    requires before != terminal && silent != before && silent != terminal
    requires forall e | e in CommandEvents(before, commands, build1) :: e.value.operationId == operationId
    requires forall e | e in CommandEvents(terminal, commands, build2) :: e.value.operationId == operationId
    ensures var log := (if first then CommandEvents(before, commands, build1) else [])
                     + (if second then CommandEvents(terminal, commands, build2) else []);
      && |On(log, before)| == (if first then |commands| else 0)
      && |On(log, terminal)| == (if second then |commands| else 0)
      && On(log, silent) == []
      && forall e | e in log :: e.value.operationId == operationId && (e.name == before || e.name == terminal)
  {
    TwoBatchesSeen(before, terminal, silent, commands, build1, build2, first, second);
    CommandEventsOnChannel(before, commands, build1);
    CommandEventsOnChannel(terminal, commands, build2);
  }
}
