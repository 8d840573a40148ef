/** The fixed names of the diagnostic listener and of its six event channels.
    Every channel name is a shared prefix followed by the name of the method
    that publishes on it, so that consumers written against the SqlClient
    diagnostic convention recognise the events unchanged. */
module Channels {

  /** Name of the listener all events are published on. */
  const DiagnosticListenerName := "MySqlClientDiagnosticListener"

  const SqlClientPrefix := "MySql.Data.MySqlClient."

  /** Default `Operation` label of command events (a SqlClient compatibility label). */
  const SqlClientExecuteScalarName := "ExecuteScalar"

  /** Default `Operation` label of connection-open events. */
  const SqlClientOpenConnectionName := "Open"

  /** The six publishing methods; their names are what `nameof` yields. */
  datatype Emitter =
    | WriteCommandBefore
    | WriteCommandAfter
    | WriteCommandError
    | WriteConnectionOpenBefore
    | WriteConnectionOpenAfter
    | WriteConnectionOpenError

  /** `nameof(e)`: the method's own name. */
  function NameOf(e: Emitter): string
  {
    match e
    case WriteCommandBefore => "WriteCommandBefore"
    case WriteCommandAfter => "WriteCommandAfter"
    case WriteCommandError => "WriteCommandError"
    case WriteConnectionOpenBefore => "WriteConnectionOpenBefore"
    case WriteConnectionOpenAfter => "WriteConnectionOpenAfter"
    case WriteConnectionOpenError => "WriteConnectionOpenError"
  }

  /** The channel an emitter publishes on: the prefix, then the method name. */
  function ChannelName(e: Emitter): (r: string)
    ensures |r| == |SqlClientPrefix| + |NameOf(e)|
    ensures r[..|SqlClientPrefix|] == SqlClientPrefix
    ensures r[|SqlClientPrefix|..] == NameOf(e)
  {
    SqlClientPrefix + NameOf(e)
  }

  const SqlBeforeExecuteCommand := ChannelName(WriteCommandBefore)
  const SqlAfterExecuteCommand := ChannelName(WriteCommandAfter)
  const SqlErrorExecuteCommand := ChannelName(WriteCommandError)

  const SqlBeforeOpenConnection := ChannelName(WriteConnectionOpenBefore)
  const SqlAfterOpenConnection := ChannelName(WriteConnectionOpenAfter)
  const SqlErrorOpenConnection := ChannelName(WriteConnectionOpenError)

  /** Every channel name; a subscriber that listens to everything enables all of these. */
  const AllChannels: set<string> := {
    SqlBeforeExecuteCommand, SqlAfterExecuteCommand, SqlErrorExecuteCommand,
    SqlBeforeOpenConnection, SqlAfterOpenConnection, SqlErrorOpenConnection
  }

  /** The command channel names are exactly the wire strings external consumers match on. */
  lemma CommandChannelLiterals()
    ensures SqlBeforeExecuteCommand == "MySql.Data.MySqlClient.WriteCommandBefore"
    ensures SqlAfterExecuteCommand == "MySql.Data.MySqlClient.WriteCommandAfter"
    ensures SqlErrorExecuteCommand == "MySql.Data.MySqlClient.WriteCommandError"
  {
  }

  /** The connection-open channel names are exactly the wire strings external consumers match on. */
  lemma OpenChannelLiterals()
    ensures SqlBeforeOpenConnection == "MySql.Data.MySqlClient.WriteConnectionOpenBefore"
    ensures SqlAfterOpenConnection == "MySql.Data.MySqlClient.WriteConnectionOpenAfter"
    ensures SqlErrorOpenConnection == "MySql.Data.MySqlClient.WriteConnectionOpenError"
  {
  }

  /** Distinct methods have distinct method names. */
  lemma NameOfInjective(a: Emitter, b: Emitter)
    requires NameOf(a) == NameOf(b)
    ensures a == b
  {
  }

  /** Two emitters share a channel exactly when they are the same emitter,
      so the six channels are pairwise distinct. */
  lemma ChannelNameInjective(a: Emitter, b: Emitter)
    ensures ChannelName(a) == ChannelName(b) <==> a == b
  {
    if ChannelName(a) == ChannelName(b) {
      NameOfInjective(a, b);
    }
  }

  /** There are exactly six channels. */
  lemma AllChannelsCount()
    ensures |AllChannels| == 6
  {
    ChannelNameInjective(WriteCommandBefore, WriteCommandAfter);
    ChannelNameInjective(WriteCommandBefore, WriteCommandError);
    ChannelNameInjective(WriteCommandBefore, WriteConnectionOpenBefore);
    ChannelNameInjective(WriteCommandBefore, WriteConnectionOpenAfter);
    ChannelNameInjective(WriteCommandBefore, WriteConnectionOpenError);
    ChannelNameInjective(WriteCommandAfter, WriteCommandError);
    ChannelNameInjective(WriteCommandAfter, WriteConnectionOpenBefore);
    ChannelNameInjective(WriteCommandAfter, WriteConnectionOpenAfter);
    ChannelNameInjective(WriteCommandAfter, WriteConnectionOpenError);
    ChannelNameInjective(WriteCommandError, WriteConnectionOpenBefore);
    ChannelNameInjective(WriteCommandError, WriteConnectionOpenAfter);
    ChannelNameInjective(WriteCommandError, WriteConnectionOpenError);
    ChannelNameInjective(WriteConnectionOpenBefore, WriteConnectionOpenAfter);
    ChannelNameInjective(WriteConnectionOpenBefore, WriteConnectionOpenError);
    ChannelNameInjective(WriteConnectionOpenAfter, WriteConnectionOpenError);
  }
}
