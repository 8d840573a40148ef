/** The values that travel in diagnostic events: operation identifiers, the
    connection and command objects as seen at publication time, and one
    payload shape per (category, phase) that the emitters publish. */
module Payloads {

  datatype Option<T> = None | Some(value: T)

  /** A 128-bit operation identifier. */
  datatype Guid = Guid(bits: bv128)
  {
    /** The all-zero identifier, returned when nobody listens. */
    static const Empty := Guid(0)
  }

  /** The states a database connection reports (System.Data.ConnectionState). */
  datatype ConnectionState = Closed | Open | Connecting | Executing | Fetching | Broken

  /** A connection as seen when an event is built; `handle` stands for the
      object's identity, `serverThread` for the session id the server assigned. */
  datatype Connection = Connection(handle: nat, state: ConnectionState, serverThread: int)

  /** A command and the connection it is bound to, if any. */
  datatype Command = Command(handle: nat, commandText: string, connection: Option<Connection>)

  /** A failure raised by the wrapped operation; `handle` stands for its identity. */
  datatype Exception = Exception(handle: nat, message: string)

  /** The execution statistics slot; the emitters never fill it. */
  datatype Statistics = Statistics

  /** The event payloads. Fields common to several shapes share their names,
      so `p.operationId` and `p.operation` are defined on every payload. */
  datatype Payload =
    | CommandBefore(operationId: Guid, operation: string, connectionId: Option<int>, command: Command)
    | CommandAfter(operationId: Guid, operation: string, connectionId: Option<int>, command: Command,
                   statistics: Option<Statistics>, timestamp: int)
    | CommandError(operationId: Guid, operation: string, connectionId: Option<int>, command: Command,
                   exception: Exception, timestamp: int)
    | OpenBefore(operationId: Guid, operation: string, connection: Connection, timestamp: int)
    | OpenAfter(operationId: Guid, operation: string, connectionId: Option<int>, connection: Connection,
                statistics: Option<Statistics>, timestamp: int)
    | OpenError(operationId: Guid, operation: string, connectionId: Option<int>, connection: Connection,
                exception: Exception, timestamp: int)

  /** One published event: the channel name and the payload written on it. */
  datatype Event = Event(name: string, value: Payload)

  /** The server session id of a connection, present only while it is open. */
  function GetConnectionId(c: Connection): (r: Option<int>)
    ensures r.Some? <==> c.state == Open
    ensures r.Some? ==> r.value == c.serverThread
  {
    if c.state == Open then Some(c.serverThread) else None
  }

  /** `command.Connection?.GetConnectionId()`: no id when the command has no
      connection, otherwise the id of its connection. */
  function CommandConnectionId(command: Command): (r: Option<int>)
    ensures r.Some? <==> command.connection.Some? && command.connection.value.state == Open
    ensures r.Some? ==> r.value == command.connection.value.serverThread
  {
    match command.connection
    case None => None
    case Some(c) => GetConnectionId(c)
  }
}
