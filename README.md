# MySqlConnector diagnostic event emitters, modelled in Dafny

MySqlConnector instruments its commands and connections with events
published on a `DiagnosticListener` named `MySqlClientDiagnosticListener`.
The emitters in `DiagnosticListenerExtensions` first ask the listener
whether anyone listens on their own channel, and publish only if someone
does:

- `WriteCommandBefore`, `WriteCommandAfter` and `WriteCommandError` publish
  one payload per command of a batch, in list order, all under one
  operation id.
- `WriteConnectionOpenBefore`, `WriteConnectionOpenAfter` and
  `WriteConnectionOpenError` publish at most one payload each.
- A Before emitter returns a fresh operation id when it publishes and
  `Guid.Empty` when nobody listens.
- An After or Error emitter publishes the id its caller hands it.

The model has five modules:

- `Channels` (channels.dfy): the listener name, the `"MySql.Data.MySqlClient."`
  prefix, the six channel names built from it and the method names, and the
  default operation labels `"ExecuteScalar"` and `"Open"`. It proves that the
  names are the wire strings consumers match and that they are pairwise
  distinct.
- `Payloads` (payloads.dfy): the operation id (`Guid` with `Guid.Empty`), the
  connection, command and exception values, one payload constructor per event
  shape, and `GetConnectionId`.
- `Listeners` (listener.dfy): the listener as a class with the set of enabled
  channel names and the log of everything written. `IsEnabled` is
  membership. `Write` appends.
- `DiagnosticListenerExtensions` (extensions.dfy): the six emitters. Each is a
  method on the listener's log. The three command emitters keep the source's
  loop and are proved against the function `CommandEvents`, which gives the
  whole batch of events. Lemmas state what every event of a batch carries,
  and which events are written on which channel (`On` gives the events
  written on one channel, in order: the events an observer picks out of the
  stream by name, as the diagnostic tests do).
- `DiagnosticScenarios` (scenarios.dfy): callers of the emitters on a fresh
  listener. `SendSqlExecuteCommand`, `SendSqlErrorExecuteCommand`,
  `SendSqlOpenConnection` and `SendSqlErrorOpenConnection` follow the
  diagnostic tests; `ExecuteBatch` (with its lemma `BracketedBatch`) covers a
  batch of commands under any set of enabled channels. Each scenario states
  which events are written.

Inputs the code takes from its environment are parameters:

- `Guid.NewGuid()` becomes `newGuid`, which must differ from `Guid.Empty`. It
  is used only when the Before channel is enabled.
- `Stopwatch.GetTimestamp()` becomes `timestamps(k)` for the k-th write of a
  command emitter, or a single `timestamp` for an open emitter.
- Each `operation` argument keeps the source's default value.

Two facts show in the code and are proved here, though a reader might
expect otherwise:

- The After and Error emitters are gated only on their own channel. If the
  Before channel has no listener but the terminal channel does, the terminal
  events are still published. They carry `Guid.Empty`, because that is the
  id the caller got back. So the principle "nothing is observed for an
  operation nobody listens to before it starts" does not hold in this code.
  The model follows the code, and `ExecuteBatch` states the exact outcome.
- `WriteCommandBefore` on an empty batch with its channel enabled returns a
  fresh id and publishes nothing.

## Model

| member | source | states |
|---|---|---|
| `Channels.ChannelName` | src/MySqlConnector/Core/DiagnosticListenerExtensions.cs:12-21 | a channel name is `"MySql.Data.MySqlClient."` followed by the publishing method's name (`NameOf`, standing for `nameof`) (its length, its prefix, its suffix) |
| `Channels.CommandChannelLiterals` | src/MySqlConnector/Core/DiagnosticListenerExtensions.cs:15-17 | the three command channels are `"MySql.Data.MySqlClient.WriteCommandBefore"`, `…WriteCommandAfter` and `…WriteCommandError` |
| `Channels.OpenChannelLiterals` | src/MySqlConnector/Core/DiagnosticListenerExtensions.cs:19-21 | the three open channels are `"MySql.Data.MySqlClient.WriteConnectionOpenBefore"`, `…After` and `…Error` |
| `Channels.NameOfInjective` | src/MySqlConnector/Core/DiagnosticListenerExtensions.cs:15-21 | different emitters have different method names |
| `Channels.ChannelNameInjective` | src/MySqlConnector/Core/DiagnosticListenerExtensions.cs:15-21 | two emitters share a channel name if and only if they are the same emitter |
| `Channels.AllChannelsCount` | src/MySqlConnector/Core/DiagnosticListenerExtensions.cs:15-21 | there are exactly six distinct channel names |
| `Payloads.GetConnectionId` | src/MySqlConnector/Core/DiagnosticListenerExtensions.cs:131 | there is a connection id exactly when the connection is `Open`, and it is the server thread |
| `Payloads.CommandConnectionId` | src/MySqlConnector/Core/DiagnosticListenerExtensions.cs:37 | a command's connection id exists exactly when it has a connection and that connection is `Open`, and it is that connection's server thread |
| `Listeners.DiagnosticListener.Write` | src/MySqlConnector/Core/DiagnosticListenerExtensions.cs:31-39 | publishing appends exactly one event with the given channel and payload to the log |
| `DiagnosticListenerExtensions.CommandEvents` | src/MySqlConnector/Core/DiagnosticListenerExtensions.cs:29-40 | a command emitter's batch has exactly one event per command |
| `DiagnosticListenerExtensions.CommandEventsAt` | src/MySqlConnector/Core/DiagnosticListenerExtensions.cs:29-40 | the k-th event of a batch is on the emitter's channel and holds the payload built for the k-th command, so events follow list order |
| `DiagnosticListenerExtensions.CommandBeforeEventsAt` | src/MySqlConnector/Core/DiagnosticListenerExtensions.cs:29-39 | each Before event (its payload built by `CommandBeforePayloads`, the object of lines 33-39) is on the Before channel and has the Before shape with no timestamp; it carries the shared id, the operation label, the k-th command and that command's connection id |
| `DiagnosticListenerExtensions.CommandAfterEventsAt` | src/MySqlConnector/Core/DiagnosticListenerExtensions.cs:53-65 | each After event (its payload built by `CommandAfterPayloads`, the object of lines 57-65) is on the After channel and carries the id as given, the label, the k-th command and its connection id, a null statistics slot and the k-th clock sample |
| `DiagnosticListenerExtensions.CommandErrorEventsAt` | src/MySqlConnector/Core/DiagnosticListenerExtensions.cs:74-86 | each Error event (its payload built by `CommandErrorPayloads`, the object of lines 78-86) is on the Error channel and carries the id as given, the label, the k-th command and its connection id, the exception exactly as passed and the k-th clock sample |
| `DiagnosticListenerExtensions.On` | src/MySqlConnector/Core/DiagnosticListenerExtensions.cs:31-32 | the events written on `channel`, in order (the events the tests pick out by name), are never more than the whole stream, and each of them was written and is on that channel |
| `DiagnosticListenerExtensions.CommandEventsOnChannel` | src/MySqlConnector/Core/DiagnosticListenerExtensions.cs:29-40 | every event of a command emitter's batch is on that emitter's channel |
| `DiagnosticListenerExtensions.OnAppend` | src/MySqlConnector/Core/DiagnosticListenerExtensions.cs:31-32 | the events one channel sees from two successive writes are what it sees from the first, then what it sees from the second |
| `DiagnosticListenerExtensions.OnCommandEvents` | src/MySqlConnector/Core/DiagnosticListenerExtensions.cs:29-40 | a batch is seen in full, in order, on its own channel and not at all on any other channel |
| `DiagnosticListenerExtensions.TwoBatchesSeen` | src/MySqlConnector/Core/DiagnosticListenerExtensions.cs:24-89 | when two gated batches go to distinct channels, each channel gets one event per command if its batch was published and none otherwise, and a third channel gets nothing |
| `DiagnosticListenerExtensions.CommandPhasesCarryId` | src/MySqlConnector/Core/DiagnosticListenerExtensions.cs:35 | every event of a Before, After or Error batch carries the one operation id the batch was built with |
| `DiagnosticListenerExtensions.WriteCommandBefore` | src/MySqlConnector/Core/DiagnosticListenerExtensions.cs:24-47 | if the Before channel is enabled, it returns the fresh id and appends the Before batch under that id; otherwise it returns `Guid.Empty` and leaves the log unchanged |
| `DiagnosticListenerExtensions.WriteCommandAfter` | src/MySqlConnector/Core/DiagnosticListenerExtensions.cs:49-68 | if the After channel is enabled, it appends the After batch under the given id; otherwise the log is unchanged; the Before channel plays no part |
| `DiagnosticListenerExtensions.WriteCommandError` | src/MySqlConnector/Core/DiagnosticListenerExtensions.cs:70-89 | if the Error channel is enabled, it appends the Error batch under the given id with `ex`; otherwise the log is unchanged |
| `DiagnosticListenerExtensions.WriteConnectionOpenBefore` | src/MySqlConnector/Core/DiagnosticListenerExtensions.cs:91-111 | if enabled, it returns the fresh id and appends one Before-open event with that id, the label, the connection and the timestamp; otherwise it returns `Guid.Empty` and the log is unchanged |
| `DiagnosticListenerExtensions.WriteConnectionOpenAfter` | src/MySqlConnector/Core/DiagnosticListenerExtensions.cs:113-129 | if enabled, it appends exactly one After-open event with the given id, the label, the connection id, the connection, a null statistics slot and the timestamp; otherwise the log is unchanged |
| `DiagnosticListenerExtensions.WriteConnectionOpenError` | src/MySqlConnector/Core/DiagnosticListenerExtensions.cs:133-149 | if enabled, it appends exactly one Error-open event with the given id, the label, the connection id, the connection, `ex` verbatim and the timestamp; otherwise the log is unchanged |
| `DiagnosticScenarios.SendSqlExecuteCommand` | tests/MySqlConnector.Tests/DiagnosticTests.cs:38-75 | a successful command on an open connection yields a Before and then an After event on the tested channel names; they share one non-empty id, are labelled "ExecuteScalar", name the command and the server thread, and the After event has a null statistics slot |
| `DiagnosticScenarios.SendSqlErrorExecuteCommand` | tests/MySqlConnector.Tests/DiagnosticTests.cs:77-101 | a failing command yields a Before and then an Error event with the same non-empty id, labelled "ExecuteScalar", carrying the failure verbatim |
| `DiagnosticScenarios.SendSqlOpenConnection` | tests/MySqlConnector.Tests/DiagnosticTests.cs:103-132 | opening yields a Before-open event with the new id, the "Open" label and the connection, then an After-open event with the same id, the same connection, the server thread and a null statistics slot |
| `DiagnosticScenarios.SendSqlErrorOpenConnection` | tests/MySqlConnector.Tests/DiagnosticTests.cs:134-155 | a failed open yields a Before-open event with the new id, the "Open" label, the connection and the first timestamp, then an Error-open event with that same id, the "Open" label, no connection id, the connection and the failure verbatim |
| `DiagnosticScenarios.ExecuteBatch` | src/MySqlConnector/Core/DiagnosticListenerExtensions.cs:24-89 | for any enabled set, a batch bracketed by Before and one terminal emitter puts one event per command on each enabled channel of the phases that ran and none elsewhere; every event carries the returned id, which is `Guid.Empty` when the Before channel is disabled, and every event is on one of the three command channels |
| `DiagnosticScenarios.BracketedBatch` | src/MySqlConnector/Core/DiagnosticListenerExtensions.cs:24-89 | a gated Before batch followed by a gated terminal batch on a distinct channel: each channel gets one event per command exactly when its batch was published, a third channel gets nothing, and every event is on one of the two channels with the shared operation id |

## Left out

- The close and transaction emitters (`WriteConnectionClose*`, `WriteTransactionCommit*`, `WriteTransactionRollback*`) appear in the tests but are not defined in DiagnosticListenerExtensions.cs. They are not part of this model.
- The callers that pair each Before event with exactly one After or Error event (`MySqlCommand`, `MySqlConnection`) are not part of this model. The scenarios play such a caller. They do not model the real one.
- In the real listener, `Write` hands every written event to every subscriber, whatever its `IsEnabled` predicate; the predicate only answers the emitters' `IsEnabled` question. The model keeps one log of written events and does not capture per-subscriber delivery. `On` is the by-name filter an observer applies to that stream.
- Subscription machinery (`DiagnosticListener.AllListeners`, `IObserver`, disposing subscriptions) is an external library. It is reduced to a set of enabled channel names, fixed during each call. The model does not cover subscribers that attach or detach while an emitter runs.
- `Guid.NewGuid()` is an argument required to differ from `Guid.Empty`. The model does not capture that ids are unique across operations.
- `Stopwatch.GetTimestamp()` samples are arguments. The model does not capture that they are monotonic or how they relate to wall-clock time.
- Connections, commands and exceptions are values with a `handle` standing for object identity. A payload holds the value as it was when the emitter was called. The model does not capture that the real payload holds a live reference whose state may change after publication.
- A null `sqlCommands` list makes the command emitters throw only when their channel is enabled, because the `IsEnabled` test (lines 26, 51 and 72) comes before the loop. A null connection makes the After and Error open emitters throw inside `GetConnectionId` only when their channel is enabled, because the `IsEnabled` tests (lines 115 and 135) come before it (lines 123 and 143), while `WriteConnectionOpenBefore` would publish it as a null `Connection` field (line 103). The model cannot express null lists or connections.
- WriteCommandBefore, WriteCommandAfter, WriteCommandError, WriteConnectionOpenBefore, WriteConnectionOpenAfter, WriteConnectionOpenError: a `Write` that throws (a subscriber's handler failing) propagates out of the emitter. A command emitter then ends its loop with only part of the batch published, and `WriteConnectionOpenBefore` throws instead of returning the fresh id. The model's `Write` never fails, so these ensures hold only when no publish throws.
- WriteCommandBefore, WriteCommandAfter, WriteCommandError: the model has a single writer. In the real listener, events of operations running concurrently could interleave with a batch, while these ensures append the batch contiguously.
- The anonymous-object form of payloads and the reflection the tests use to read fields are replaced by one datatype constructor per payload shape.
- The tests' collector and their floating-point tick conversion are test harness code. Neither is part of this model.
- `ServerThread` is a 32-bit `int` in the source. It is modelled as an unbounded `int`, which is harmless because no arithmetic is done on it.
