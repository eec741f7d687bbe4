// The older generation of the library (namespace Sql): a connection wrapper
// that retries an action a fixed number of times and always releases its
// connection, a manager that hands out such wrappers, and a command proxy
// whose executions are neither retried nor preceded by an Open.
module Sql {
  import opened Common
  import opened NativeDriver

  /** The wrapper's and the manager's default number of attempts. */
  const DefaultMaxRetries: int := 10
  /** The wrapper's and the manager's default delay between attempts, in milliseconds. */
  const DefaultDelayMs: TimeSpan := 100

  /**
   * What a SimpleRetry loop did: whether the action eventually completed,
   * the world it left, the failures of the attempts that failed, in order,
   * and the number of attempts made.
   */
  datatype RetryRun<S> = RetryRun(completed: bool, final: S, errors: seq<Exception>, attempts: nat)

  /**
   * The SimpleRetry loop from attempt `i` on: attempts go on while fewer
   * than `maxRetries` were made and the previous one failed; every failure
   * is retried, whatever its type.
   */
  function SimpleRun<S>(maxRetries: int, s: S, action: (S, nat) -> Step<S, ()>, i: nat): (r: RetryRun<S>)
    ensures r.attempts == |r.errors| + (if r.completed then 1 else 0)
    ensures i + r.attempts <= (if maxRetries > i then maxRetries else i)
    ensures !r.completed ==> i + r.attempts == (if maxRetries > i then maxRetries else i)
    decreases maxRetries - i
  {
    if i >= maxRetries then RetryRun(false, s, [], 0)
    else
      var step := action(s, i);
      if step.outcome.Returned? then RetryRun(true, step.next, [], 1)
      else
        var rest := SimpleRun(maxRetries, step.next, action, i + 1);
        RetryRun(rest.completed, rest.final, [step.outcome.ex] + rest.errors, rest.attempts + 1)
  }

  /** A run preceded by attempts that failed with `earlier`. */
  function AfterFailures<S>(earlier: seq<Exception>, run: RetryRun<S>): RetryRun<S> {
    RetryRun(run.completed, run.final, earlier + run.errors, |earlier| + run.attempts)
  }

  /** Every attempt of `action` fails. */
  ghost predicate AlwaysFails<S(!new)>(action: (S, nat) -> Step<S, ()>) {
    forall s, i :: action(s, i).outcome.Threw?
  }

  /**
   * An action that always fails is attempted exactly `maxRetries` times
   * (none when that is not positive), and the aggregate surfaced holds one
   * inner error per attempt.
   */
  lemma {:induction false} AlwaysFailingExhausts<S(!new)>(maxRetries: int, s: S, action: (S, nat) -> Step<S, ()>, i: nat)
    requires AlwaysFails(action)
    ensures var run := SimpleRun(maxRetries, s, action, i);
      && !run.completed
      && run.attempts == |run.errors| == (if maxRetries > i then maxRetries - i else 0)
    decreases maxRetries - i
  {
    if i < maxRetries {
      AlwaysFailingExhausts(maxRetries, action(s, i).next, action, i + 1);
    }
  }

  /** An action that succeeds at once is attempted once and nothing is aggregated. */
  lemma FirstAttemptSucceeds<S>(maxRetries: int, s: S, action: (S, nat) -> Step<S, ()>)
    requires maxRetries >= 1 && action(s, 0).outcome.Returned?
    ensures SimpleRun(maxRetries, s, action, 0) == RetryRun(true, action(s, 0).next, [], 1)
  {
  }

  /**
   * SimpleRetry.Do: runs `action` up to `maxRetries` times until it
   * completes; when no attempt completes the caller gets an aggregate of
   * every failure (`errors`). The wait of `delay` between attempts is not
   * modelled.
   */
  method Do<S>(s0: S, action: (S, nat) -> Step<S, ()>, delay: TimeSpan, maxRetries: int)
    returns (completed: bool, s: S, errors: seq<Exception>, attempts: nat)
    ensures RetryRun(completed, s, errors, attempts) == SimpleRun(maxRetries, s0, action, 0)
  {
    ghost var whole := SimpleRun(maxRetries, s0, action, 0);
    var i: nat := 0;
    s, errors, completed := s0, [], false;
    assert whole == AfterFailures([], whole);
    while i < maxRetries
      invariant i == |errors|
      invariant whole == AfterFailures(errors, SimpleRun(maxRetries, s, action, i))
      decreases maxRetries - i
    {
      var step := action(s, i);
      s := step.next;
      if step.outcome.Returned? {
        attempts := i + 1;
        completed := true;
        return;
      }
      assert errors + ([step.outcome.ex] + SimpleRun(maxRetries, s, action, i + 1).errors)
          == (errors + [step.outcome.ex]) + SimpleRun(maxRetries, s, action, i + 1).errors;
      errors := errors + [step.outcome.ex];
      i := i + 1;
    }
    attempts := i;
  }

  /** A native connection and the retry settings its actions run with. */
  class SqlConnectionWrapper {
    const connection: NativeConnection
    const delay: TimeSpan
    const maxRetries: int

    constructor Create(connection: NativeConnection, delay: TimeSpan, maxRetries: int)
      ensures this.connection == connection && this.delay == delay && this.maxRetries == maxRetries
    {
      this.connection := connection;
      this.delay := delay;
      this.maxRetries := maxRetries;
    }

    /** A null connection is refused with ArgumentNullException("connection"). */
    static method New(connection: Option<NativeConnection>, delay: TimeSpan, maxRetries: int)
      returns (r: Result<SqlConnectionWrapper, ArgumentError>)
      ensures connection.None? ==> r == Failure(ArgumentNull(Some("connection")))
      ensures connection.Some? ==>
        && r.Success? && fresh(r.value)
        && r.value.connection == connection.value && r.value.delay == delay && r.value.maxRetries == maxRetries
    {
      if connection.None? {
        return Failure(ArgumentNull(Some("connection")));
      }
      var w := new SqlConnectionWrapper.Create(connection.value, delay, maxRetries);
      r := Success(w);
    }

    /** The single-argument constructor: 10 attempts, 100 ms apart. */
    static method WithDefaults(connection: Option<NativeConnection>)
      returns (r: Result<SqlConnectionWrapper, ArgumentError>)
      ensures connection.None? ==> r == Failure(ArgumentNull(Some("connection")))
      ensures connection.Some? ==>
        && r.Success? && fresh(r.value) && r.value.connection == connection.value
        && r.value.delay == 100 && r.value.maxRetries == 10
    {
      r := New(connection, DefaultDelayMs, DefaultMaxRetries);
    }

    /**
     * Runs `action` on the connection under SimpleRetry with the stored
     * delay and number of attempts, then disposes the connection, whether
     * the action completed or not.
     */
    method Execute(action: (Handle, nat) -> Step<Handle, ()>)
      returns (completed: bool, errors: seq<Exception>, attempts: nat)
      modifies connection
      ensures var run := SimpleRun(maxRetries, old(connection.handle), action, 0);
        && completed == run.completed && errors == run.errors && attempts == run.attempts
        && connection.handle == Disposing(run.final)
      ensures connection.handle.disposed && connection.handle.state == Closed
      ensures connection.connectionString == old(connection.connectionString)
    {
      var h;
      completed, h, errors, attempts := Do(connection.handle, action, delay, maxRetries);
      connection.handle := h;
      connection.Dispose();
    }
  }

  /** A connection string and the retry settings of the wrappers made from it. */
  datatype ConnectionManager = ConnectionManager(connectionString: string, delay: TimeSpan, maxRetries: int)
  {
    /** A new wrapper of a new native connection, with the stored string and settings. */
    method CreateConnection() returns (w: SqlConnectionWrapper)
      ensures fresh(w) && fresh(w.connection)
      ensures w.connection.connectionString == connectionString && w.connection.handle == NewHandle
      ensures w.delay == delay && w.maxRetries == maxRetries
    {
      var native := new NativeConnection(connectionString);
      w := new SqlConnectionWrapper.Create(native, delay, maxRetries);
    }

    /**
     * Runs `action` once on a connection of its own, then disposes that
     * connection; a failure of the action surfaces unchanged.
     */
    method Execute(action: Handle -> Step<Handle, ()>) returns (r: Outcome<()>, cnn: SqlConnectionWrapper)
      ensures fresh(cnn) && fresh(cnn.connection)
      ensures cnn.connection.connectionString == connectionString
      ensures cnn.delay == delay && cnn.maxRetries == maxRetries
      ensures r == action(NewHandle).outcome && cnn.connection.handle == Disposing(action(NewHandle).next)
    {
      cnn := CreateConnection();
      var step := action(cnn.connection.handle);
      cnn.connection.handle := step.next;
      r := step.outcome;
      cnn.connection.Dispose();
    }
  }

  /** The manager constructor: a null connection string is refused with ArgumentNullException("connectionString"). */
  function NewManager(connectionString: Option<string>, delay: TimeSpan, maxRetries: int)
    : (r: Result<ConnectionManager, ArgumentError>)
    ensures r.Failure? <==> connectionString.None?
    ensures r.Failure? ==> r.error == ArgumentNull(Some("connectionString"))
    ensures r.Success? ==>
      r.value.connectionString == connectionString.value && r.value.delay == delay && r.value.maxRetries == maxRetries
  {
    if connectionString.None? then Failure(ArgumentNull(Some("connectionString")))
    else Success(ConnectionManager(connectionString.value, delay, maxRetries))
  }

  /** The single-argument manager constructor: 10 attempts, 100 ms apart. */
  function DefaultManager(connectionString: Option<string>): (r: Result<ConnectionManager, ArgumentError>)
    ensures r.Failure? <==> connectionString.None?
    ensures r.Failure? ==> r.error == ArgumentNull(Some("connectionString"))
    ensures r.Success? ==> r.value.connectionString == connectionString.value && r.value.delay == 100 && r.value.maxRetries == 10
  {
    NewManager(connectionString, DefaultDelayMs, DefaultMaxRetries)
  }

  /** A command proxy over a native command; its executions are not retried. */
  class SqlCommandWrapper {
    const command: NativeCommand
    var connection: SqlConnectionWrapper?

    constructor (connection: SqlConnectionWrapper?, command: NativeCommand)
      ensures this.connection == connection && this.command == command
    {
      this.connection := connection;
      this.command := command;
    }

    /**
     * Only a connection wrapper can be assigned: null is refused with an
     * ArgumentNullException without a parameter name, another connection
     * type with an ArgumentException naming it; a refused value changes
     * nothing.
     */
    method SetConnection(value: Assigned<SqlConnectionWrapper>) returns (r: Result<(), ArgumentError>)
      modifies this
      ensures value.Null? ==> r == Failure(ArgumentNull(None)) && connection == old(connection)
      ensures value.Unsupported? ==>
        r == Failure(Argument("Unsupported connection type (" + value.typeName + ")")) && connection == old(connection)
      ensures value.Supported? ==> r == Success(()) && connection == value.instance
    {
      match value
      case Null => r := Failure(ArgumentNull(None));
      case Unsupported(t) => r := Failure(Argument("Unsupported connection type (" + t + ")"));
      case Supported(c) =>
        connection := c;
        r := Success(());
    }

    /** The transaction of the native command. */
    function Transaction(): Option<SqlTransaction>
      reads this, command
    {
      command.transaction
    }

    /**
     * The value is cast to SqlTransaction and stored: null clears the
     * transaction, another transaction type fails the cast with an
     * InvalidCastException and nothing is stored.
     */
    method SetTransaction(value: Assigned<SqlTransaction>) returns (r: Result<(), ArgumentError>)
      modifies command
      ensures value.Null? ==> r == Success(()) && Transaction() == None
      ensures value.Unsupported? ==> r == Failure(InvalidCast(value.typeName)) && Transaction() == old(Transaction())
      ensures value.Supported? ==> r == Success(()) && Transaction() == Some(value.instance)
      ensures command.Settings() == old(command.Settings()).(transaction := Transaction())
      ensures command.executed == old(command.executed)
    {
      match value
      case Null =>
        command.transaction := None;
        r := Success(());
      case Unsupported(t) =>
        r := Failure(InvalidCast(t));
      case Supported(t) =>
        command.transaction := Some(t);
        r := Success(());
    }

    /**
     * An execution goes straight to the native command, once: no retry,
     * and no Open (the native connection receives no driver call).
     */
    method ExecuteVerb<T>(verb: Verb, result: ExecResult<T>) returns (r: Outcome<T>)
      modifies command, command.connection
      ensures r == OutcomeOf(result) && command.executed == old(command.executed) + [verb]
      ensures command.connection.handle.calls == old(command.connection.handle.calls)
      ensures command.connection.handle == AfterExec(old(command.connection.handle), result)
      ensures command.connection.connectionString == old(command.connection.connectionString)
      ensures command.Settings() == old(command.Settings())
    {
      r := command.Execute(verb, result);
    }

    method ExecuteNonQuery(result: ExecResult<int>) returns (r: Outcome<int>)
      modifies command, command.connection
      ensures r == OutcomeOf(result) && command.executed == old(command.executed) + [NonQuery]
      ensures command.connection.handle.calls == old(command.connection.handle.calls)
      ensures command.connection.handle == AfterExec(old(command.connection.handle), result)
      ensures command.connection.connectionString == old(command.connection.connectionString)
      ensures command.Settings() == old(command.Settings())
    {
      r := ExecuteVerb(NonQuery, result);
    }

    method ExecuteReader(result: ExecResult<DataReader>) returns (r: Outcome<DataReader>)
      modifies command, command.connection
      ensures r == OutcomeOf(result) && command.executed == old(command.executed) + [Reader]
      ensures command.connection.handle.calls == old(command.connection.handle.calls)
      ensures command.connection.handle == AfterExec(old(command.connection.handle), result)
      ensures command.connection.connectionString == old(command.connection.connectionString)
      ensures command.Settings() == old(command.Settings())
    {
      r := ExecuteVerb(Reader, result);
    }

    method ExecuteReaderWith(behavior: CommandBehavior, result: ExecResult<DataReader>) returns (r: Outcome<DataReader>)
      modifies command, command.connection
      ensures r == OutcomeOf(result) && command.executed == old(command.executed) + [ReaderWith(behavior)]
      ensures command.connection.handle.calls == old(command.connection.handle.calls)
      ensures command.connection.handle == AfterExec(old(command.connection.handle), result)
      ensures command.connection.connectionString == old(command.connection.connectionString)
      ensures command.Settings() == old(command.Settings())
    {
      r := ExecuteVerb(ReaderWith(behavior), result);
    }

    method ExecuteScalar(result: ExecResult<ScalarValue>) returns (r: Outcome<ScalarValue>)
      modifies command, command.connection
      ensures r == OutcomeOf(result) && command.executed == old(command.executed) + [Scalar]
      ensures command.connection.handle.calls == old(command.connection.handle.calls)
      ensures command.connection.handle == AfterExec(old(command.connection.handle), result)
      ensures command.connection.connectionString == old(command.connection.connectionString)
      ensures command.Settings() == old(command.Settings())
    {
      r := ExecuteVerb(Scalar, result);
    }
  }
}
