// The native ADO.NET driver objects the decorators wrap: SqlConnection,
// SqlCommand and SqlTransaction. Their I/O is not modelled; a connection is
// a handle whose state changes only through the calls it receives, and the
// outcome of every call that talks to the server comes from an oracle.
module NativeDriver {
  import opened Common

  datatype ConnectionState = Closed | Open

  /** The driver calls a native connection receives, in order. */
  datatype DriverCall = OpenCall | CloseCall | DisposeCall

  /**
   * The observable state of a native connection: whether it is open,
   * whether it was disposed, and the calls it has received.
   */
  datatype Handle = Handle(state: ConnectionState, disposed: bool, calls: seq<DriverCall>)

  /** A connection as created from a connection string: closed, not disposed, untouched. */
  const NewHandle := Handle(Closed, false, [])

  /** Close: the connection is closed (closing a closed connection changes nothing else). */
  function Closing(h: Handle): Handle {
    Handle(Closed, h.disposed, h.calls + [CloseCall])
  }

  /** Dispose: the connection is released, and closed if it was open. */
  function Disposing(h: Handle): Handle {
    Handle(Closed, true, h.calls + [DisposeCall])
  }

  /** The server breaks the connection during a command: the driver reports it closed. */
  function Broken(h: Handle): Handle {
    Handle(Closed, h.disposed, h.calls)
  }

  /**
   * One call of Open on the native connection, which fails with `fault` if
   * there is one. An open connection is not opened again.
   */
  function OpenOnce(h: Handle, fault: Option<Exception>): (step: Step<Handle, ()>)
    ensures step.outcome.Returned? <==> step.next.state == Open
    ensures h.state == Open ==> step == Step(h, Returned(()))
    ensures h.state == Closed ==> step.next.calls == h.calls + [OpenCall] && step.next.disposed == h.disposed
    ensures fault.None? ==> step.outcome.Returned?
  {
    if h.state == Open then Step(h, Returned(()))
    else
      match fault
      case Some(e) => Step(Handle(Closed, h.disposed, h.calls + [OpenCall]), Threw(e))
      case None => Step(Handle(Open, h.disposed, h.calls + [OpenCall]), Returned(()))
  }

  /** A native SqlConnection: its connection string and its handle. */
  class NativeConnection {
    var connectionString: string
    var handle: Handle

    constructor (connectionString: string)
      ensures this.connectionString == connectionString && handle == NewHandle
    {
      this.connectionString := connectionString;
      handle := NewHandle;
    }

    method Close()
      modifies this
      ensures handle == Closing(old(handle)) && connectionString == old(connectionString)
    {
      handle := Closing(handle);
    }

    method Dispose()
      modifies this
      ensures handle == Disposing(old(handle)) && connectionString == old(connectionString)
    {
      handle := Disposing(handle);
    }

    /**
     * The ConnectionString setter: a string the driver cannot parse
     * (`malformed` carries its complaint) is refused with an
     * ArgumentException, and any string is refused with an
     * InvalidOperationException while the connection is open; a refused
     * string changes nothing.
     */
    method SetConnectionString(value: string, malformed: Option<string>) returns (r: Result<(), Refusal>)
      modifies this
      ensures handle == old(handle)
      ensures malformed.Some? ==> r == Failure(Malformed(malformed.value))
      ensures malformed.None? && old(handle.state) == Open ==> r == Failure(ConnectionIsOpen)
      ensures r.Failure? ==> connectionString == old(connectionString)
      ensures r.Success? <==> malformed.None? && old(handle.state) == Closed
      ensures r.Success? ==> connectionString == value
    {
      if malformed.Some? {
        return Failure(Malformed(malformed.value));
      }
      if handle.state == Open {
        return Failure(ConnectionIsOpen);
      }
      connectionString := value;
      r := Success(());
    }
  }

  /**
   * Why the driver refuses a connection string: it cannot be parsed
   * (ArgumentException, with the driver's message), or the connection is
   * open (InvalidOperationException).
   */
  datatype Refusal = Malformed(message: string) | ConnectionIsOpen

  /** How a reader is asked to behave (System.Data.CommandBehavior). */
  datatype CommandBehavior =
    | DefaultBehavior | SingleResult | SchemaOnly | KeyInfo | SingleRow | SequentialAccess | CloseConnection

  /** The four ways of executing a command. */
  datatype Verb = NonQuery | Reader | ReaderWith(behavior: CommandBehavior) | Scalar

  /** How the command text is interpreted (System.Data.CommandType). */
  datatype CommandType = Text | StoredProcedure | TableDirect

  /** How command results are applied to a DataRow (System.Data.UpdateRowSource). */
  datatype UpdateRowSource = NoneSource | OutputParameters | FirstReturnedRecord | Both

  /** What ExecuteReader hands back; its rows are not modelled. */
  datatype DataReader = DataReader(id: nat)

  /** What ExecuteScalar hands back: the first column of the first row, or null. */
  datatype ScalarValue = NullValue | Value(text: string)

  /**
   * What the server makes of one execution: a value, or a failure that may
   * also have broken the connection.
   */
  datatype ExecResult<T> = Done(value: T) | Failed(error: Exception, breaksConnection: bool)

  /** The outcome the caller of an execution sees. */
  function OutcomeOf<T>(e: ExecResult<T>): Outcome<T> {
    match e
    case Done(v) => Returned(v)
    case Failed(ex, _) => Threw(ex)
  }

  /** The connection after an execution. */
  function AfterExec<T>(h: Handle, e: ExecResult<T>): Handle {
    if e.Failed? && e.breaksConnection then Broken(h) else h
  }

  /** A transaction of the native driver (SqlTransaction), known by its identity. */
  datatype SqlTransaction = SqlTransaction(id: nat)

  /** The settable properties of a native command. */
  datatype CommandSettings = CommandSettings(
    transaction: Option<SqlTransaction>,
    commandText: string,
    commandTimeout: int,
    commandType: CommandType,
    updatedRowSource: UpdateRowSource)

  /** Why the driver refuses a property value: a negative timeout, or TableDirect, which SqlClient does not support. */
  datatype PropertyRefusal = NegativeTimeout(timeout: int) | UnsupportedCommandType(commandType: CommandType)

  /** A native SqlCommand, bound to the connection that created it. */
  class NativeCommand {
    const connection: NativeConnection
    var transaction: Option<SqlTransaction>
    var commandText: string
    var commandTimeout: int
    var commandType: CommandType
    var updatedRowSource: UpdateRowSource
    /** The executions the command has been asked for, in order. */
    var executed: seq<Verb>

    /** SqlConnection.CreateCommand: a command with the driver's defaults. */
    constructor (connection: NativeConnection)
      ensures this.connection == connection && transaction == None
      ensures commandText == "" && commandTimeout == 30 && commandType == Text && updatedRowSource == Both
      ensures executed == []
    {
      this.connection := connection;
      transaction := None;
      commandText := "";
      commandTimeout := 30;
      commandType := Text;
      updatedRowSource := Both;
      executed := [];
    }

    /** Runs the command once; the server's answer is `result`. */
    method Execute<T>(verb: Verb, result: ExecResult<T>) returns (r: Outcome<T>)
      modifies this, connection
      ensures r == OutcomeOf(result)
      ensures executed == old(executed) + [verb]
      ensures connection.handle == AfterExec(old(connection.handle), result)
      ensures connection.connectionString == old(connection.connectionString)
      ensures Settings() == old(Settings())
    {
      executed := executed + [verb];
      connection.handle := AfterExec(connection.handle, result);
      r := OutcomeOf(result);
    }

    function Settings(): CommandSettings
      reads this
    {
      CommandSettings(transaction, commandText, commandTimeout, commandType, updatedRowSource)
    }

    /** The CommandTimeout setter: a negative timeout is refused with an ArgumentException and changes nothing. */
    method SetCommandTimeout(value: int) returns (r: Result<(), PropertyRefusal>)
      modifies this
      ensures value < 0 ==> r == Failure(NegativeTimeout(value)) && Settings() == old(Settings())
      ensures value >= 0 ==> r == Success(()) && Settings() == old(Settings()).(commandTimeout := value)
      ensures executed == old(executed)
    {
      if value < 0 {
        return Failure(NegativeTimeout(value));
      }
      commandTimeout := value;
      r := Success(());
    }

    /**
     * The CommandType setter: TableDirect is refused with an
     * ArgumentOutOfRangeException and changes nothing.
     */
    method SetCommandType(value: CommandType) returns (r: Result<(), PropertyRefusal>)
      modifies this
      ensures value == TableDirect ==> r == Failure(UnsupportedCommandType(value)) && Settings() == old(Settings())
      ensures value != TableDirect ==> r == Success(()) && Settings() == old(Settings()).(commandType := value)
      ensures executed == old(executed)
    {
      if value == TableDirect {
        return Failure(UnsupportedCommandType(value));
      }
      commandType := value;
      r := Success(());
    }
  }
}
