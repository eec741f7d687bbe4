// The decorated connection and command: ReliableSqlConnection runs Open under
// a fresh clone of its retry policy, and ReliableSqlCommand runs each of its
// execute verbs under its own policy, opening the connection inside every
// attempt when it is not open. The two classes refer to each other and live
// in one module.
module ReliableSql {
  import opened Common
  import opened Constants
  import opened Detection
  import opened Extensions
  import opened SmartRetry
  import opened NativeDriver

  /** The native Open as an operation for a retry policy: try `j` fails with `faults(j)`, if anything. */
  function OpenAttempt(faults: nat -> Option<Exception>): (attempt: (Handle, nat) -> Step<Handle, ()>)
    ensures forall h: Handle, j: nat :: attempt(h, j).outcome.Returned? <==> attempt(h, j).next.state == Open
    ensures forall h: Handle, j: nat :: h.state == Open ==> attempt(h, j) == Step(h, Returned(()))
    ensures forall h: Handle, j: nat :: h.state == Closed ==>
      attempt(h, j).next.calls == h.calls + [OpenCall] && attempt(h, j).next.disposed == h.disposed
  {
    var attempt := (h: Handle, j: nat) => OpenOnce(h, faults(j));
    assert forall h: Handle, j: nat :: attempt(h, j) == OpenOnce(h, faults(j));
    attempt
  }

  /** `n` copies of `x`. */
  function Repeat<X>(x: X, n: nat): (r: seq<X>)
    ensures |r| == n && forall k :: 0 <= k < n ==> r[k] == x
  {
    seq(n, _ => x)
  }

  /**
   * A retried Open, from try `i` on: it succeeds exactly when it leaves the
   * connection open; an open connection receives no driver call; a closed
   * one receives one native Open per retry plus one.
   */
  lemma {:induction false} OpenRunShape(detection: DetectionStrategy, retryCount: nat, h: Handle,
                                        faults: nat -> Option<Exception>, i: nat)
    requires i <= retryCount
    ensures var run := BaseRun(detection, retryCount, h, OpenAttempt(faults), i);
      && (run.outcome.Returned? <==> run.final.state == Open)
      && run.final.disposed == h.disposed
      && (h.state == Open ==> run.final == h && run.events == [] && run.outcome.Returned?)
      && (h.state == Closed ==> run.final.calls == h.calls + Repeat(OpenCall, |run.events| + 1))
    decreases retryCount - i
  {
    BaseRunUnfold(detection, retryCount, h, OpenAttempt(faults), i);
    var step := OpenAttempt(faults)(h, i);
    assert step == OpenOnce(h, faults(i));
    if h.state == Closed && step.outcome.Threw? && Classify(detection, step.outcome.ex.info) && i < retryCount {
      OpenRunShape(detection, retryCount, step.next, faults, i + 1);
      var rest := BaseRun(detection, retryCount, step.next, OpenAttempt(faults), i + 1);
      assert h.calls + [OpenCall] + Repeat(OpenCall, |rest.events| + 1)
          == h.calls + Repeat(OpenCall, |rest.events| + 2);
    }
  }

  /**
   * The policy a connection's Open runs under, as far as one Open is
   * concerned: a clone of the connection's policy has its strategies and
   * only its remembered handler.
   */
  datatype Opener = Opener(detection: DetectionStrategy, retry: RetryStrategy, watchers: seq<Handler>)

  /**
   * The part of the world a command's execution touches: its connection's
   * native handle, the executions asked of the native command, and the
   * notifications handed out by the retried Opens nested in its attempts.
   */
  datatype VerbWorld = VerbWorld(conn: Handle, executed: seq<Verb>, openings: seq<Notification>)

  /**
   * The Open nested in attempt `i` of a command, run by a clone of the
   * connection's policy; its try `j` fails with `openFaults(i, j)`, if
   * anything.
   */
  function NestedOpen(opener: Opener, h: Handle, openFaults: (nat, nat) -> Option<Exception>, i: nat): Run<Handle, ()> {
    BaseRun(opener.detection, opener.retry.retryCount, h, OpenAttempt((j: nat) => openFaults(i, j)), 0)
  }

  /**
   * One attempt of an execute verb: when the connection is not open, open
   * it (a retried call of its own; try `j` of the Open nested in attempt
   * `i` fails with `openFaults(i, j)`, if anything) and give up the attempt
   * with the Open's exception when it fails; then run the native command,
   * whose answer in attempt `i` is `exec(i)`.
   */
  function VerbStep<T>(verb: Verb, opener: Opener, openFaults: (nat, nat) -> Option<Exception>,
                       exec: nat -> ExecResult<T>, w: VerbWorld, i: nat): (step: Step<VerbWorld, T>)
    ensures step.next.executed == w.executed + [verb] || (step.next.executed == w.executed && step.outcome.Threw?)
    ensures step.outcome.Returned? ==> step.next.executed == w.executed + [verb] && step.outcome == OutcomeOf(exec(i))
    ensures |w.openings| <= |step.next.openings| && step.next.openings[..|w.openings|] == w.openings
  {
    if w.conn.state == Open then
      Step(VerbWorld(AfterExec(w.conn, exec(i)), w.executed + [verb], w.openings), OutcomeOf(exec(i)))
    else
      var openRun := NestedOpen(opener, w.conn, openFaults, i);
      var openings := w.openings + Deliver(opener.watchers, openRun.events);
      if openRun.outcome.Threw? then
        Step(VerbWorld(openRun.final, w.executed, openings), Threw(openRun.outcome.ex))
      else
        Step(VerbWorld(AfterExec(openRun.final, exec(i)), w.executed + [verb], openings), OutcomeOf(exec(i)))
  }

  /** The attempts of an execute verb, as an operation for a retry policy. */
  function VerbAttempt<T>(verb: Verb, opener: Opener, openFaults: (nat, nat) -> Option<Exception>,
                          exec: nat -> ExecResult<T>): (VerbWorld, nat) -> Step<VerbWorld, T>
  {
    (w: VerbWorld, i: nat) => VerbStep(verb, opener, openFaults, exec, w, i)
  }

  lemma NestedOpenShape(opener: Opener, h: Handle, openFaults: (nat, nat) -> Option<Exception>, i: nat)
    ensures var run := NestedOpen(opener, h, openFaults, i);
      && (run.outcome.Returned? <==> run.final.state == Open)
      && (h.state == Closed ==> run.final.calls == h.calls + Repeat(OpenCall, |run.events| + 1))
  {
    OpenRunShape(opener.detection, opener.retry.retryCount, h, (j: nat) => openFaults(i, j), 0);
  }

  /**
   * Each attempt checks the state first: on an open connection it makes no
   * driver call and no nested Open; on a closed one it calls the native
   * Open before anything else, and it runs the native command only when the
   * connection then is open.
   */
  lemma VerbStepChecksState<T>(verb: Verb, opener: Opener, openFaults: (nat, nat) -> Option<Exception>,
                                  exec: nat -> ExecResult<T>, w: VerbWorld, i: nat)
    ensures var step := VerbStep(verb, opener, openFaults, exec, w, i);
      && (w.conn.state == Open ==>
            step.next.conn.calls == w.conn.calls && step.next.openings == w.openings
            && step.next.executed == w.executed + [verb] && step.outcome == OutcomeOf(exec(i)))
      && (w.conn.state == Closed ==>
            |step.next.conn.calls| > |w.conn.calls|
            && step.next.conn.calls[..|w.conn.calls| + 1] == w.conn.calls + [OpenCall])
      && (step.next.executed == w.executed + [verb] || (step.next.executed == w.executed && step.outcome.Threw?))
  {
    if w.conn.state == Closed {
      var openRun := NestedOpen(opener, w.conn, openFaults, i);
      NestedOpenShape(opener, w.conn, openFaults, i);
      assert openRun.final.calls[..|w.conn.calls| + 1] == w.conn.calls + [OpenCall];
    }
  }

  /**
   * A retried execution, from attempt `i` on: it only appends executions of
   * `verb`, at most one per attempt, and when it returns, the connection is
   * open.
   */
  lemma {:induction false} VerbRunShape<T>(verb: Verb, opener: Opener, openFaults: (nat, nat) -> Option<Exception>,
                                           exec: nat -> ExecResult<T>, detection: DetectionStrategy,
                                           retryCount: nat, w: VerbWorld, i: nat)
    requires i <= retryCount
    ensures var run := BaseRun(detection, retryCount, w, VerbAttempt(verb, opener, openFaults, exec), i);
      && |w.executed| <= |run.final.executed| <= |w.executed| + |run.events| + 1
      && run.final.executed[..|w.executed|] == w.executed
      && (forall k :: |w.executed| <= k < |run.final.executed| ==> run.final.executed[k] == verb)
      && (run.outcome.Returned? ==> run.final.conn.state == Open && |run.final.executed| > |w.executed|)
    decreases retryCount - i
  {
    var attempt := VerbAttempt(verb, opener, openFaults, exec);
    BaseRunUnfold(detection, retryCount, w, attempt, i);
    var step := attempt(w, i);
    assert step == VerbStep(verb, opener, openFaults, exec, w, i);
    VerbStepChecksState(verb, opener, openFaults, exec, w, i);
    if step.outcome.Returned? && w.conn.state == Closed {
      NestedOpenShape(opener, w.conn, openFaults, i);
    }
    if step.outcome.Threw? && Classify(detection, step.outcome.ex.info) && i < retryCount {
      VerbRunShape(verb, opener, openFaults, exec, detection, retryCount, step.next, i + 1);
      var rest := BaseRun(detection, retryCount, step.next, attempt, i + 1);
      assert rest.final.executed[..|step.next.executed|] == step.next.executed;
      assert rest.final.executed[..|w.executed|] == w.executed by {
        assert step.next.executed[..|w.executed|] == w.executed;
      }
    }
  }

  /** A retried execution that returns hands back the native answer of its last attempt. */
  lemma VerbRunAnswer<T>(verb: Verb, opener: Opener, openFaults: (nat, nat) -> Option<Exception>,
                         exec: nat -> ExecResult<T>, detection: DetectionStrategy, retryCount: nat, w: VerbWorld)
    ensures var run := BaseRun(detection, retryCount, w, VerbAttempt(verb, opener, openFaults, exec), 0);
      run.outcome.Returned? ==> run.outcome == OutcomeOf(exec(|run.events|))
  {
    var attempt := VerbAttempt(verb, opener, openFaults, exec);
    var lastWorld := SurfacesLastAttempt(detection, retryCount, w, attempt, 0);
    var k := |BaseRun(detection, retryCount, w, attempt, 0).events|;
    assert attempt(lastWorld, k) == VerbStep(verb, opener, openFaults, exec, lastWorld, k);
  }

  /** A connection whose Open and commands are retried under a policy. */
  class ReliableSqlConnection {
    const native: NativeConnection
    const policy: SmartRetryPolicy
    var connectionString: string

    /** Between calls only application handlers are subscribed to the policy. */
    ghost predicate Valid()
      reads this, policy
    {
      policy.Valid()
    }

    /** The constructor past its argument checks: the native connection is created last. */
    constructor Create(connectionString: string, policy: SmartRetryPolicy)
      requires policy.Valid()
      ensures Valid() && fresh(native)
      ensures this.connectionString == connectionString && this.policy == policy
      ensures native.connectionString == connectionString && native.handle == NewHandle
    {
      this.connectionString := connectionString;
      this.policy := policy;
      native := new NativeConnection(connectionString);
    }

    /**
     * The constructor taking a policy: a null connection string is refused
     * with ArgumentNullException("connectionString") before any native
     * connection exists; a string the native connection cannot parse
     * (`malformed` carries the driver's complaint) surfaces the driver's
     * ArgumentException.
     */
    static method New(connectionString: Option<string>, malformed: Option<string>, policy: SmartRetryPolicy)
      returns (r: Result<ReliableSqlConnection, ArgumentError>)
      requires policy.Valid()
      ensures connectionString.None? ==> r == Failure(ArgumentNull(Some("connectionString")))
      ensures connectionString.Some? && malformed.Some? ==> r == Failure(Argument(malformed.value))
      ensures connectionString.Some? && malformed.None? ==>
        && r.Success? && fresh(r.value) && fresh(r.value.native) && r.value.Valid()
        && r.value.connectionString == connectionString.value
        && r.value.native.connectionString == connectionString.value
        && r.value.policy == policy && r.value.native.handle == NewHandle
    {
      if connectionString.None? {
        return Failure(ArgumentNull(Some("connectionString")));
      }
      if malformed.Some? {
        return Failure(Argument(malformed.value));
      }
      var c := new ReliableSqlConnection.Create(connectionString.value, policy);
      r := Success(c);
    }

    /** The constructors taking strategies: a new policy of those strategies, with no handler. */
    static method WithStrategies(connectionString: Option<string>, malformed: Option<string>,
                                 detection: DetectionStrategy, retry: RetryStrategy)
      returns (r: Result<ReliableSqlConnection, ArgumentError>)
      ensures connectionString.None? ==> r == Failure(ArgumentNull(Some("connectionString")))
      ensures connectionString.Some? && malformed.Some? ==> r == Failure(Argument(malformed.value))
      ensures connectionString.Some? && malformed.None? ==>
        && r.Success? && fresh(r.value) && fresh(r.value.native) && fresh(r.value.policy) && r.value.Valid()
        && r.value.connectionString == connectionString.value
        && r.value.native.connectionString == connectionString.value && r.value.native.handle == NewHandle
        && r.value.policy.detection == detection && r.value.policy.retry == retry
        && r.value.policy.handlers == [] && r.value.policy.remembered == None
    {
      var p := new SmartRetryPolicy(detection, retry);
      r := New(connectionString, malformed, p);
    }

    /**
     * The constructor taking only a connection string: the connection
     * shares the default policy `shared`.
     */
    static method WithDefaultPolicy(connectionString: Option<string>, malformed: Option<string>, shared: SmartRetryPolicy)
      returns (r: Result<ReliableSqlConnection, ArgumentError>)
      requires IsDefaultPolicy(shared)
      ensures connectionString.None? ==> r == Failure(ArgumentNull(Some("connectionString")))
      ensures connectionString.Some? && malformed.Some? ==> r == Failure(Argument(malformed.value))
      ensures connectionString.Some? && malformed.None? ==>
        && r.Success? && fresh(r.value) && fresh(r.value.native) && r.value.Valid()
        && r.value.connectionString == connectionString.value
        && r.value.native.connectionString == connectionString.value && r.value.native.handle == NewHandle
        && r.value.policy == shared && IsDefaultPolicy(r.value.policy)
    {
      r := New(connectionString, malformed, shared);
    }

    /** The connection string, as last set. */
    function ConnectionString(): string
      reads this
    {
      connectionString
    }

    /**
     * Sets the cached string first and the native connection's string
     * second. When the driver refuses the string (it cannot parse it, or
     * the connection is open), its exception surfaces with the cached string
     * already changed, so the getter then reports a string the native
     * connection does not use. The native state is untouched either way.
     */
    method SetConnectionString(value: string, malformed: Option<string>) returns (r: Result<(), Refusal>)
      requires Valid()
      modifies this, native
      ensures Valid() && ConnectionString() == value
      ensures malformed.Some? ==> r == Failure(Malformed(malformed.value))
      ensures malformed.None? && old(native.handle.state) == ConnectionState.Open ==> r == Failure(ConnectionIsOpen)
      ensures r.Success? <==> malformed.None? && old(native.handle.state) == Closed
      ensures r.Success? ==> native.connectionString == value
      ensures r.Failure? ==> native.connectionString == old(native.connectionString)
      ensures native.handle == old(native.handle)
    {
      connectionString := value;
      r := native.SetConnectionString(value, malformed);
    }

    /** The state reported is always the native connection's. */
    function State(): (s: ConnectionState)
      reads this, native
      ensures s == native.handle.state
    {
      native.handle.state
    }

    method Close()
      requires Valid()
      modifies native
      ensures Valid() && native.handle == Closing(old(native.handle))
      ensures native.connectionString == old(native.connectionString)
    {
      native.Close();
    }

    /**
     * Opens the connection under a fresh clone of the policy: the native
     * Open is called only while the connection is not open, and retried as
     * the policy says. The clone's subscribers (the remembered handler) see
     * the retries; a final failure carries the retry details.
     */
    method Open(faults: nat -> Option<Exception>, clock: nat -> DateTime, now: DateTime)
      returns (r: Outcome<()>, observed: seq<Notification>)
      requires Valid()
      modifies native, Raised(BaseRun(policy.detection, policy.retry.retryCount, native.handle, OpenAttempt(faults), 0))
      ensures Valid() && native.connectionString == old(native.connectionString)
      ensures var run := BaseRun(policy.detection, policy.retry.retryCount, old(native.handle), OpenAttempt(faults), 0);
        && r == run.outcome && native.handle == run.final
        && observed == Deliver(CloneHandlers(policy.remembered), run.events)
        && (r.Threw? ==>
              r.ex.data == WithRetryDetails(old(r.ex.data), LastRetryCount(run.events),
                                            if run.events == [] then now else clock(LastRetryCount(run.events))))
      ensures r.Returned? <==> State() == ConnectionState.Open
      ensures old(native.handle.state) == ConnectionState.Open ==> r.Returned? && native.handle == old(native.handle)
    {
      OpenRunShape(policy.detection, policy.retry.retryCount, native.handle, faults, 0);
      ghost var raised := Raised(BaseRun(policy.detection, policy.retry.retryCount, native.handle, OpenAttempt(faults), 0));
      var p := policy.Clone();
      var h;
      r, h, observed := p.ExecuteAction(native.handle, OpenAttempt(faults), clock, now);
      native.handle := h;
      assert r.Threw? ==> r.ex in raised;
    }

    /**
     * A command on this connection, wrapping a new native command of the
     * native connection, with its own fresh clone of the policy.
     */
    method CreateCommand() returns (c: ReliableSqlCommand)
      requires Valid()
      ensures fresh(c) && fresh(c.command) && fresh(c.policy) && c.Valid()
      ensures c.connection == this && c.command.connection == native && c.policy != policy
      ensures c.policy.detection == policy.detection && c.policy.retry == policy.retry
      ensures c.policy.handlers == CloneHandlers(policy.remembered) && c.policy.remembered == policy.remembered
      ensures c.command.executed == [] && c.command.transaction == None
    {
      var cmd := new NativeCommand(native);
      var p := policy.Clone();
      c := new ReliableSqlCommand(this, cmd, p);
    }

    /** Closes the native connection first when it is open, then disposes it. */
    method Dispose()
      requires Valid()
      modifies native
      ensures Valid() && native.handle.state == Closed && native.handle.disposed
      ensures native.connectionString == old(native.connectionString)
      ensures native.handle.calls
           == old(native.handle.calls) + (if old(native.handle.state) == ConnectionState.Open then [CloseCall, DisposeCall] else [DisposeCall])
    {
      if native.handle.state == ConnectionState.Open {
        native.Close();
      }
      native.Dispose();
    }
  }

  /** The shared default policy: the Azure SQL classifier, 10 retries 100 ms apart. */
  ghost predicate IsDefaultPolicy(p: SmartRetryPolicy)
    reads p
  {
    p.detection == AzureSql && p.retry == FixedInterval(DefaultMaxRetries, DefaultDelayMs) && p.Valid()
  }

  /** Creates the shared default policy. */
  method NewDefaultPolicy() returns (p: SmartRetryPolicy)
    ensures fresh(p) && IsDefaultPolicy(p) && p.handlers == [] && p.remembered == None
  {
    p := new SmartRetryPolicy(AzureSql, FixedInterval(DefaultMaxRetries, DefaultDelayMs));
  }

  /** A command whose executions are retried under its own policy. */
  class ReliableSqlCommand {
    const command: NativeCommand
    const policy: SmartRetryPolicy
    var connection: ReliableSqlConnection

    ghost predicate Valid()
      reads this, connection, connection.policy, policy
    {
      connection.Valid() && policy.Valid()
    }

    constructor (connection: ReliableSqlConnection, command: NativeCommand, policy: SmartRetryPolicy)
      requires connection.Valid() && policy.Valid()
      ensures Valid()
      ensures this.connection == connection && this.command == command && this.policy == policy
    {
      this.connection := connection;
      this.command := command;
      this.policy := policy;
    }

    /** The retried call one verb makes, from the current state. */
    ghost function VerbRun<T>(verb: Verb, openFaults: (nat, nat) -> Option<Exception>, exec: nat -> ExecResult<T>)
      : Run<VerbWorld, T>
      reads this, connection, connection.native, connection.policy, command, policy
    {
      var opener := Opener(connection.policy.detection, connection.policy.retry, CloneHandlers(connection.policy.remembered));
      BaseRun(policy.detection, policy.retry.retryCount,
              VerbWorld(connection.native.handle, command.executed, []),
              VerbAttempt(verb, opener, openFaults, exec), 0)
    }

    /**
     * Runs `verb` inside the policy's ExecuteAction, every attempt opening
     * the connection first when it is not open. Returns what the command
     * finally returned or threw, what the policy's subscribers saw, and what
     * the subscribers of the nested Opens saw.
     */
    method ExecuteVerb<T>(verb: Verb, openFaults: (nat, nat) -> Option<Exception>, exec: nat -> ExecResult<T>,
                          clock: nat -> DateTime, now: DateTime)
      returns (r: Outcome<T>, observed: seq<Notification>, openings: seq<Notification>)
      requires Valid()
      modifies policy, connection.native, command, Raised(VerbRun(verb, openFaults, exec))
      ensures Valid() && connection == old(connection)
      ensures policy.handlers == old(policy.handlers) && policy.remembered == old(policy.remembered)
      ensures var run := old(VerbRun(verb, openFaults, exec));
        && r == run.outcome && connection.native.handle == run.final.conn && command.executed == run.final.executed
        && openings == run.final.openings && observed == Deliver(old(policy.handlers), run.events)
        && (r.Threw? ==>
              r.ex.data == WithRetryDetails(old(r.ex.data), LastRetryCount(run.events),
                                            if run.events == [] then now else clock(LastRetryCount(run.events))))
      ensures command.Settings() == old(command.Settings())
      ensures connection.native.connectionString == old(connection.native.connectionString)
    {
      var opener := Opener(connection.policy.detection, connection.policy.retry, CloneHandlers(connection.policy.remembered));
      var w;
      r, w, observed := policy.ExecuteAction(VerbWorld(connection.native.handle, command.executed, []),
                                             VerbAttempt(verb, opener, openFaults, exec), clock, now);
      connection.native.handle := w.conn;
      command.executed := w.executed;
      openings := w.openings;
    }

    /** ExecuteVerb with the non-query verb. */
    method ExecuteNonQuery(openFaults: (nat, nat) -> Option<Exception>, exec: nat -> ExecResult<int>,
                           clock: nat -> DateTime, now: DateTime)
      returns (r: Outcome<int>, observed: seq<Notification>, openings: seq<Notification>)
      requires Valid()
      modifies policy, connection.native, command, Raised(VerbRun(NonQuery, openFaults, exec))
      ensures Valid() && connection == old(connection)
      ensures policy.handlers == old(policy.handlers) && policy.remembered == old(policy.remembered)
      ensures var run := old(VerbRun(NonQuery, openFaults, exec));
        && r == run.outcome && connection.native.handle == run.final.conn && command.executed == run.final.executed
        && openings == run.final.openings && observed == Deliver(old(policy.handlers), run.events)
        && (r.Threw? ==>
              r.ex.data == WithRetryDetails(old(r.ex.data), LastRetryCount(run.events),
                                            if run.events == [] then now else clock(LastRetryCount(run.events))))
      ensures command.Settings() == old(command.Settings())
      ensures connection.native.connectionString == old(connection.native.connectionString)
    {
      r, observed, openings := ExecuteVerb(NonQuery, openFaults, exec, clock, now);
    }

    /** ExecuteVerb with the reader verb. */
    method ExecuteReader(openFaults: (nat, nat) -> Option<Exception>, exec: nat -> ExecResult<DataReader>,
                         clock: nat -> DateTime, now: DateTime)
      returns (r: Outcome<DataReader>, observed: seq<Notification>, openings: seq<Notification>)
      requires Valid()
      modifies policy, connection.native, command, Raised(VerbRun(Reader, openFaults, exec))
      ensures Valid() && connection == old(connection)
      ensures policy.handlers == old(policy.handlers) && policy.remembered == old(policy.remembered)
      ensures var run := old(VerbRun(Reader, openFaults, exec));
        && r == run.outcome && connection.native.handle == run.final.conn && command.executed == run.final.executed
        && openings == run.final.openings && observed == Deliver(old(policy.handlers), run.events)
        && (r.Threw? ==>
              r.ex.data == WithRetryDetails(old(r.ex.data), LastRetryCount(run.events),
                                            if run.events == [] then now else clock(LastRetryCount(run.events))))
      ensures command.Settings() == old(command.Settings())
      ensures connection.native.connectionString == old(connection.native.connectionString)
    {
      r, observed, openings := ExecuteVerb(Reader, openFaults, exec, clock, now);
    }

    /** ExecuteVerb with the reader verb with a behaviour. */
    method ExecuteReaderWith(behavior: CommandBehavior, openFaults: (nat, nat) -> Option<Exception>,
                             exec: nat -> ExecResult<DataReader>, clock: nat -> DateTime, now: DateTime)
      returns (r: Outcome<DataReader>, observed: seq<Notification>, openings: seq<Notification>)
      requires Valid()
      modifies policy, connection.native, command, Raised(VerbRun(ReaderWith(behavior), openFaults, exec))
      ensures Valid() && connection == old(connection)
      ensures policy.handlers == old(policy.handlers) && policy.remembered == old(policy.remembered)
      ensures var run := old(VerbRun(ReaderWith(behavior), openFaults, exec));
        && r == run.outcome && connection.native.handle == run.final.conn && command.executed == run.final.executed
        && openings == run.final.openings && observed == Deliver(old(policy.handlers), run.events)
        && (r.Threw? ==>
              r.ex.data == WithRetryDetails(old(r.ex.data), LastRetryCount(run.events),
                                            if run.events == [] then now else clock(LastRetryCount(run.events))))
      ensures command.Settings() == old(command.Settings())
      ensures connection.native.connectionString == old(connection.native.connectionString)
    {
      r, observed, openings := ExecuteVerb(ReaderWith(behavior), openFaults, exec, clock, now);
    }

    /** ExecuteVerb with the scalar verb. */
    method ExecuteScalar(openFaults: (nat, nat) -> Option<Exception>, exec: nat -> ExecResult<ScalarValue>,
                         clock: nat -> DateTime, now: DateTime)
      returns (r: Outcome<ScalarValue>, observed: seq<Notification>, openings: seq<Notification>)
      requires Valid()
      modifies policy, connection.native, command, Raised(VerbRun(Scalar, openFaults, exec))
      ensures Valid() && connection == old(connection)
      ensures policy.handlers == old(policy.handlers) && policy.remembered == old(policy.remembered)
      ensures var run := old(VerbRun(Scalar, openFaults, exec));
        && r == run.outcome && connection.native.handle == run.final.conn && command.executed == run.final.executed
        && openings == run.final.openings && observed == Deliver(old(policy.handlers), run.events)
        && (r.Threw? ==>
              r.ex.data == WithRetryDetails(old(r.ex.data), LastRetryCount(run.events),
                                            if run.events == [] then now else clock(LastRetryCount(run.events))))
      ensures command.Settings() == old(command.Settings())
      ensures connection.native.connectionString == old(connection.native.connectionString)
    {
      r, observed, openings := ExecuteVerb(Scalar, openFaults, exec, clock, now);
    }

    /**
     * Only a reliable connection can be assigned: null is refused with an
     * ArgumentNullException without a parameter name, another connection
     * type with an ArgumentException naming it; a refused value changes
     * nothing.
     */
    method SetConnection(value: Assigned<ReliableSqlConnection>) returns (r: Result<(), ArgumentError>)
      requires Valid()
      requires value.Supported? ==> value.instance.Valid()
      modifies this
      ensures Valid()
      ensures value.Null? ==> r == Failure(ArgumentNull(None)) && connection == old(connection)
      ensures value.Unsupported? ==>
        r == Failure(Argument("Unsupported connection type (" + value.typeName + ")")) && connection == old(connection)
      ensures value.Supported? ==> r == Success(()) && connection == value.instance
    {
      match value
      case Null => r := Failure(ArgumentNull(None));
      case Unsupported(t) => r := Failure(Argument("Unsupported connection type (" + t + ")"));
      case Supported(c) =>
        connection := c;
        r := Success(());
    }

    /** The transaction of the native command. */
    function Transaction(): Option<SqlTransaction>
      reads this, command
    {
      command.transaction
    }

    /**
     * Null clears the native command's transaction, a SqlTransaction is
     * stored, any other transaction type is refused with an
     * ArgumentException naming it and changes nothing.
     */
    method SetTransaction(value: Assigned<SqlTransaction>) returns (r: Result<(), ArgumentError>)
      modifies command
      ensures value.Null? ==> r == Success(()) && Transaction() == None
      ensures value.Unsupported? ==>
        r == Failure(Argument("Unsupported transaction type (" + value.typeName + ")"))
        && Transaction() == old(Transaction())
      ensures value.Supported? ==> r == Success(()) && Transaction() == Some(value.instance)
      ensures command.Settings() == old(command.Settings()).(transaction := Transaction())
      ensures command.executed == old(command.executed)
    {
      match value
      case Null =>
        command.transaction := None;
        r := Success(());
      case Unsupported(t) =>
        r := Failure(Argument("Unsupported transaction type (" + t + ")"));
      case Supported(t) =>
        command.transaction := Some(t);
        r := Success(());
    }

    function CommandText(): string reads this, command { command.commandText }
    function CommandTimeout(): int reads this, command { command.commandTimeout }
    function CommandType(): NativeDriver.CommandType reads this, command { command.commandType }
    function UpdatedRowSource(): NativeDriver.UpdateRowSource reads this, command { command.updatedRowSource }

    /** Writes through to the native command; nothing else changes. */
    method SetCommandText(value: string)
      modifies command
      ensures CommandText() == value
      ensures command.Settings() == old(command.Settings()).(commandText := value)
      ensures command.executed == old(command.executed)
    {
      command.commandText := value;
    }

    /**
     * Writes through to the native command, which refuses a negative
     * timeout and then keeps its value; nothing else changes.
     */
    method SetCommandTimeout(value: int) returns (r: Result<(), PropertyRefusal>)
      modifies command
      ensures r.Success? <==> value >= 0
      ensures r.Failure? ==> r.error == NegativeTimeout(value) && command.Settings() == old(command.Settings())
      ensures r.Success? ==> CommandTimeout() == value && command.Settings() == old(command.Settings()).(commandTimeout := value)
      ensures command.executed == old(command.executed)
    {
      r := command.SetCommandTimeout(value);
    }

    /**
     * Writes through to the native command, which refuses TableDirect and
     * then keeps its value; nothing else changes.
     */
    method SetCommandType(value: NativeDriver.CommandType) returns (r: Result<(), PropertyRefusal>)
      modifies command
      ensures r.Success? <==> value != TableDirect
      ensures r.Failure? ==> r.error == UnsupportedCommandType(value) && command.Settings() == old(command.Settings())
      ensures r.Success? ==> CommandType() == value && command.Settings() == old(command.Settings()).(commandType := value)
      ensures command.executed == old(command.executed)
    {
      r := command.SetCommandType(value);
    }

    /** Writes through to the native command; nothing else changes. */
    method SetUpdatedRowSource(value: NativeDriver.UpdateRowSource)
      modifies command
      ensures UpdatedRowSource() == value
      ensures command.Settings() == old(command.Settings()).(updatedRowSource := value)
      ensures command.executed == old(command.executed)
    {
      command.updatedRowSource := value;
    }
  }
}
