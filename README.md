# reliable-sql, modelled in Dafny

reliable-sql wraps ADO.NET SQL Server connections and commands with a
transient-fault retry layer. This model covers:

- **`AzureSqlStrategy.IsTransient`**, the extended transient-error classifier.
  It trusts the stock SQL Database detection strategy first. When that strategy
  says "not transient", it lower-cases a `SqlException`'s string form and looks
  for "physical connection is not usable" or "timeout expired".
- **`SmartRetryPolicy`**, which decorates the retry library's policy:
  - `ExecuteAction` attaches a bookkeeping handler for one call. It writes the
    retry count and time onto the exception that finally surfaces, and detaches
    the handler on every path.
  - `Subscribe` adds a handler and remembers it.
  - `Clone` makes a fresh policy with the same strategies and only the
    remembered handler.
- **`Extensions.AddRetryDetails`**, the two keyed writes into an exception's
  `Data` dictionary.
- **`ReliableSqlConnection`**. Its constructors check their arguments. It keeps
  its own copy of the connection string. It writes its copy before the native
  connection's, so a string the driver refuses still changes what its getter
  reports. `Open` runs under a fresh clone of the connection's policy.
  `Dispose` closes before it releases. `CreateCommand` gives each command its own policy clone.
- **`ReliableSqlCommand`**. Each of its four execute verbs runs inside the
  policy's `ExecuteAction`. Each attempt first re-opens the connection if it is
  not open. The `Connection` and `Transaction` setters check types, and the
  other properties pass through.
- **The older `Sql` namespace**:
  - `SqlConnectionWrapper` retries an action a fixed number of times and always
    disposes its connection.
  - `ConnectionManager` stores a configuration and hands out wrappers.
  - `SqlCommandWrapper` is a command proxy with no retry.

Modules (one per file):

| file | module | models |
|---|---|---|
| `constants.dfy` | `Constants` | the data keys and the default retry budget |
| `common.dfy` | `Common` | exceptions (with their mutable `Data`), outcomes, argument errors |
| `azure_sql_strategy.dfy` | `AzureSqlStrategy` | the extended classifier (pure) |
| `detection.dfy` | `Detection` | the detection strategies, and the transient-error catalogues the unit tests use |
| `extensions.dfy` | `Extensions` | `AddRetryDetails` |
| `smart_retry_policy.dfy` | `SmartRetry` | the retry library's loop, and `SmartRetryPolicy` |
| `native_driver.dfy` | `NativeDriver` | the native `SqlConnection` / `SqlCommand` as abstract handles |
| `reliable_sql.dfy` | `ReliableSql` | `ReliableSqlConnection` and `ReliableSqlCommand` |
| `sql_wrappers.dfy` | `Sql` | `SimpleRetry` (by contract), `SqlConnectionWrapper`, `ConnectionManager`, `SqlCommandWrapper` |

How the model represents the system:

- **Retried operations.** A C# closure that talks to the database is modelled
  as a pure step function `(S, nat) -> Step<S, T>`. Given the state of the
  world and the attempt number, it says what the attempt leaves behind and what
  it returns or throws. The I/O outcomes therefore come from an oracle.
- **The retry loop.** The library's loop is the function `SmartRetry.BaseRun`:
  - A failure is retried when the detection strategy calls it transient and
    fewer than `retryCount` retries were made.
  - Retry `k` (counted from 1) is handed to every subscriber in subscription
    order.
  - Any other failure surfaces as the same exception object.
- **Methods.** Each method runs the loop step by step and is proved equal to
  that function. The connection and command methods then write the final world
  back into their objects.
- **Clock and stock verdict.** The clock (`DateTime.UtcNow`) is a parameter.
  The stock detection strategy's verdict is part of each error's data.

## Model

| member | source | states |
|---|---|---|
| AzureSqlStrategy.IsTransient | src/Core/AzureSqlStrategy.cs:9-34 | A stock "transient" verdict is final. Otherwise a non-`SqlException` is not transient. A `SqlException` is transient exactly when its lower-cased string form contains "physical connection is not usable" or "timeout expired". |
| AzureSqlStrategy.Contains | src/Core/AzureSqlStrategy.cs:22-26 | `string.Contains` holds exactly when the pattern occurs at some index. |
| AzureSqlStrategy.MatchIgnoresCase | src/Core/AzureSqlStrategy.cs:20-29 | Any spelling of either pattern that lower-cases to it makes a `SqlException` transient, at any position. |
| AzureSqlStrategy.VerdictIgnoresCase | src/Core/AzureSqlStrategy.cs:20-33 | Two errors of the same type and stock verdict whose texts differ only in letter case get the same verdict. |
| Detection.UnofficialMessagesAreTransient | src/UnitTests/UnofficialTransientErrors.cs:8-12 | A `SqlException` whose text contains either unofficial message is transient for the extended classifier, even when the stock strategy rejects it. |
| Detection.Classify | src/Core/AzureSqlStrategy.cs:11-33 | The extended classifier accepts everything the stock strategy accepts. For anything but a `SqlException` it agrees with the stock strategy. The catch-all test strategy accepts every error. |
| Extensions.WithRetryDetails | src/Core/Extensions.cs:7-11 | The Attempts key holds the count and the FirstOccurrence key holds the time. The other keys are unchanged and no other key is added. |
| Extensions.AddRetryDetails | src/Core/Extensions.cs:7-11 | The exception's `Data` becomes `WithRetryDetails` of its old `Data`, in place. |
| Extensions.LastAnnotationWins | src/Core/Extensions.cs:9-10 | Annotating twice equals annotating once with the second arguments, because both writes overwrite. |
| Extensions.AnnotationIsIdempotent | src/Core/Extensions.cs:9-10 | Repeating an annotation with the same arguments changes nothing. |
| SmartRetry.BaseRun | src/Core/SmartRetryPolicy.cs:52 | The library loop makes at most `retryCount` retries, numbered consecutively from 1. Every retry follows a failure the strategy calls transient. A failure that surfaces before the budget is spent was classified non-transient. |
| SmartRetry.SurfacesLastAttempt | src/Core/SmartRetryPolicy.cs:52 | What a call returns or throws, and the world it leaves, come from its last attempt: attempt `k` after `k` retries. |
| SmartRetry.AlwaysTransientExhausts | src/UnitTests/ConnectionManagerTests.cs:15-45 | When every attempt fails transiently, the whole budget is spent (`retryCount` retries) and the last failure surfaces. |
| SmartRetry.CatchAllExhausts | src/UnitTests/ConnectionManagerTests.cs:19-43 | Under the catch-all test strategy, an operation that always fails fires exactly `retryCount` retries. The count the bookkeeping records is `retryCount`, and a failure surfaces. |
| SmartRetry.ExhaustionNotifiesEveryRetry | src/UnitTests/ConnectionManagerTests.cs:15-45 | In that case a subscriber receives exactly N notifications, numbered 1..N, and the recorded count is N. |
| SmartRetry.NonTransientSurfacesAtOnce | src/Core/SmartRetryPolicy.cs:50-59 | A failure the strategy rejects surfaces unchanged, with no retry event. |
| SmartRetry.NoBudgetNoRetry | src/Core/SmartRetryPolicy.cs:50-59 | With no retry budget, the first outcome is final and no subscriber is notified. |
| SmartRetry.RemoveLast | src/Core/SmartRetryPolicy.cs:62 | Delegate removal shortens the invocation list by one when the handler is present. An absent handler changes nothing. |
| SmartRetry.RemoveLastOccurrence | src/Core/SmartRetryPolicy.cs:62 | The entry removed is the last occurrence of the handler, and the rest of the list keeps its order. |
| SmartRetry.ObservedDeliver | src/Core/SmartRetryPolicy.cs:42-48 | With the bookkeeping handler appended, the application handlers see exactly what they would see without it. |
| SmartRetry.BookkeptDeliver | src/Core/SmartRetryPolicy.cs:39-46 | The bookkeeping handler ends holding the count of the last retry and the clock reading at that retry. With no retry it holds (0, none). |
| SmartRetry.DeliverAppend | src/Core/SmartRetryPolicy.cs:42-48 | Delivering one more event appends its dispatch to every subscriber. |
| SmartRetry.SmartRetryPolicy.constructor | src/Core/SmartRetryPolicy.cs:10-13 | A new policy keeps the given detection and retry strategies. It has no subscriber and no remembered handler. |
| SmartRetry.SmartRetryPolicy.Subscribe | src/Core/SmartRetryPolicy.cs:68-73 | The handler becomes the remembered handler, replacing any earlier one, and is appended to `Retrying`. A null handler is remembered as none and appends nothing. |
| SmartRetry.SmartRetryPolicy.Clone | src/Core/SmartRetryPolicy.cs:75-83 | The result is a fresh policy with the same detection and retry strategies. Its only subscriber is the remembered handler, or none. |
| SmartRetry.SmartRetryPolicy.BaseExecuteAction | src/Core/SmartRetryPolicy.cs:52 | The loop returns `BaseRun`'s outcome and final world, and hands every retry to every subscriber. |
| SmartRetry.SmartRetryPolicy.HandleNotifications | src/Core/SmartRetryPolicy.cs:42-46 | Replaying the notifications gives the bookkeeping locals `Bookkept` describes, and the application handlers' share. |
| SmartRetry.SmartRetryPolicy.BookkeptExecuteAction | src/Core/SmartRetryPolicy.cs:37-63 | The call runs with the bookkeeping handler attached. It reports the last retry count (0 if none) and the time of the latest retry (the call's time if none). Afterwards the subscribers are as before. |
| SmartRetry.SmartRetryPolicy.ExecuteAction | src/Core/SmartRetryPolicy.cs:35-66 | A success returns the loop's value and writes nothing. A failure surfaces the same exception, annotated with that count and time. The subscriber list and the remembered handler are unchanged afterwards. |
| ReliableSql.OpenAttempt | src/Core/ReliableSqlConnection.cs:152-162 | One try of the retried Open succeeds exactly when it leaves the connection open. An open connection is left as it is. A closed one gets one native Open. |
| ReliableSql.OpenRunShape | src/Core/ReliableSqlConnection.cs:150-163 | A retried Open succeeds exactly when it leaves the connection open. An open connection gets no driver call. A closed one gets one native Open per retry, plus one. |
| ReliableSql.NestedOpenShape | src/Core/ReliableSqlCommand.cs:41-42 | The Open nested in a command attempt has the same shape. |
| ReliableSql.VerbStep | src/Core/ReliableSqlCommand.cs:39-45 | One attempt of a verb runs the native command at most once. When it returns, the command ran and its answer is returned. The nested Opens' notifications are only appended. |
| ReliableSql.VerbStepChecksState | src/Core/ReliableSqlCommand.cs:39-45 | Each attempt checks the state first. An open connection gets no driver call and the command runs. A closed one gets a native Open before anything else. The command runs at most once per attempt. |
| ReliableSql.VerbRunShape | src/Core/ReliableSqlCommand.cs:35-93 | A retried verb only appends executions of that verb, at most one per attempt. When it returns, the connection is open. |
| ReliableSql.VerbRunAnswer | src/Core/ReliableSqlCommand.cs:37-45 | A retried verb that returns hands back the native answer of its last attempt. |
| ReliableSql.ReliableSqlConnection.New | src/Core/ReliableSqlConnection.cs:53-63 | A null string is refused with `ArgumentNullException("connectionString")` before any native connection exists. A string the native connection cannot parse surfaces the driver's `ArgumentException`. Otherwise a closed native connection of that string is created. |
| ReliableSql.ReliableSqlConnection.WithStrategies | src/Core/ReliableSqlConnection.cs:28-51 | The connection gets a new policy of the given strategies, with no handler. The string is refused as by `New`. |
| ReliableSql.ReliableSqlConnection.WithDefaultPolicy | src/Core/ReliableSqlConnection.cs:21-26 | The connection shares the default policy: `AzureSqlStrategy`, with a fixed interval of 10 retries 100 ms apart. |
| ReliableSql.NewDefaultPolicy | src/Core/ReliableSqlConnection.cs:21 | The default policy is the Azure SQL classifier with FixedInterval(10, 100 ms), no handler subscribed. |
| ReliableSql.ReliableSqlConnection.SetConnectionString | src/Core/ReliableSqlConnection.cs:70-81 | The getter returns the value afterwards in every case. The native string becomes the value only when the driver accepts it. A malformed string, or any string while the connection is open, is refused and leaves the native string as it was. The native state is untouched. |
| ReliableSql.ReliableSqlConnection.State | src/Core/ReliableSqlConnection.cs:102-105 | The state reported is the native connection's. `Open` states its result through it. |
| ReliableSql.ReliableSqlConnection.Close | src/Core/ReliableSqlConnection.cs:126-129 | Closes the native connection. The native connection string is unchanged. |
| ReliableSql.ReliableSqlConnection.Open | src/Core/ReliableSqlConnection.cs:150-163 | Runs the native Open under a fresh clone: only when not open, retried per the policy, with the remembered handler notified. Success holds exactly when `State` is Open afterwards. An already open connection is left as it is, and a failure carries retry details. |
| ReliableSql.ReliableSqlConnection.CreateCommand | src/Core/ReliableSqlConnection.cs:142-145 | The command's `Connection` is this connection. It wraps a new native command of this native connection. Its policy is a fresh clone, distinct from the connection's own. |
| ReliableSql.ReliableSqlConnection.Dispose | src/Core/ReliableSqlConnection.cs:167-184 | Closes the native connection first if it is open, then disposes it. It ends closed and disposed, with its connection string unchanged. |
| ReliableSql.ReliableSqlCommand.constructor | src/Core/ReliableSqlCommand.cs:21-30 | The command keeps the given connection, native command and policy. |
| ReliableSql.ReliableSqlCommand.ExecuteVerb | src/Core/ReliableSqlCommand.cs:35-93 | The verb runs entirely inside the command policy's `ExecuteAction`, each attempt being `VerbStep`. The connection, command and notifications end as the run leaves them. A failure carries retry details. The command's settings and the native connection string are unchanged. |
| ReliableSql.ReliableSqlCommand.ExecuteNonQuery | src/Core/ReliableSqlCommand.cs:35-46 | The full contract of `ExecuteVerb` with the non-query verb: outcome, connection, executions, notifications, and the retry details on a failure. The command's settings and the native connection string are unchanged. |
| ReliableSql.ReliableSqlCommand.ExecuteReader | src/Core/ReliableSqlCommand.cs:51-62 | The full contract of `ExecuteVerb` with the reader verb: outcome, connection, executions, notifications, and the retry details on a failure. The command's settings and the native connection string are unchanged. |
| ReliableSql.ReliableSqlCommand.ExecuteReaderWith | src/Core/ReliableSqlCommand.cs:67-78 | The full contract of `ExecuteVerb` with the reader verb and the given behaviour: outcome, connection, executions, notifications, and the retry details on a failure. The command's settings and the native connection string are unchanged. |
| ReliableSql.ReliableSqlCommand.ExecuteScalar | src/Core/ReliableSqlCommand.cs:83-94 | The full contract of `ExecuteVerb` with the scalar verb: outcome, connection, executions, notifications, and the retry details on a failure. The command's settings and the native connection string are unchanged. |
| ReliableSql.ReliableSqlCommand.SetConnection | src/Core/ReliableSqlCommand.cs:101-117 | Null gives `ArgumentNullException` and a foreign type gives `ArgumentException("Unsupported connection type (T)")`, both leaving the connection unchanged. A reliable connection replaces it. |
| ReliableSql.ReliableSqlCommand.SetTransaction | src/Core/ReliableSqlCommand.cs:122-144 | Null clears the native transaction. A foreign type gives `ArgumentException("Unsupported transaction type (T)")` with no change. A `SqlTransaction` is stored. No other setting and no execution changes. |
| ReliableSql.ReliableSqlCommand.SetCommandText | src/Core/ReliableSqlCommand.cs:149-153 | Writes through to the native command. The getter reads it back; the other settings and the executions are unchanged. |
| ReliableSql.ReliableSqlCommand.SetCommandTimeout | src/Core/ReliableSqlCommand.cs:158-162 | Writes through to the native command. A negative timeout is refused, as the driver refuses it, and changes nothing. Otherwise only the timeout changes. |
| ReliableSql.ReliableSqlCommand.SetCommandType | src/Core/ReliableSqlCommand.cs:167-171 | Writes through to the native command. `TableDirect` is refused, as the driver refuses it, and changes nothing. Otherwise only the command type changes. |
| ReliableSql.ReliableSqlCommand.SetUpdatedRowSource | src/Core/ReliableSqlCommand.cs:184-188 | Writes through to the native command. Only `UpdatedRowSource` changes. |
| Sql.SimpleRun | src/UnitTests/SqlConnectionWrapperTests.cs:14-46 | Each failure costs one attempt. Attempts never exceed `maxRetries`. A run that does not complete used them all. |
| Sql.AlwaysFailingExhausts | src/UnitTests/SqlConnectionWrapperTests.cs:14-46 | An always-failing action is attempted exactly `maxRetries` times (10 by default, 1 when set to 1). The aggregate holds one inner error per attempt. |
| Sql.FirstAttemptSucceeds | src/Core/SqlConnectionWrapper.cs:35 | An action that succeeds at once is attempted once and nothing is aggregated. |
| Sql.Do | src/Core/SqlConnectionWrapper.cs:35 | The retry loop computes exactly `SimpleRun`. |
| Sql.SqlConnectionWrapper.New | src/Core/SqlConnectionWrapper.cs:22-29 | A null connection is refused with `ArgumentNullException("connection")`. Otherwise the connection, delay and attempt count are stored. |
| Sql.SqlConnectionWrapper.WithDefaults | src/Core/SqlConnectionWrapper.cs:9-20 | The single-argument constructor stores 10 attempts and a 100 ms delay. |
| Sql.SqlConnectionWrapper.Execute | src/Core/SqlConnectionWrapper.cs:31-37 | The action runs under `SimpleRun` with the stored delay and count. The connection is then disposed whether the action completed or not. |
| Sql.NewManager | src/Core/ConnectionManager.cs:20-27 | A null connection string gives `ArgumentNullException("connectionString")`; otherwise the configuration is stored. |
| Sql.DefaultManager | src/Core/ConnectionManager.cs:8-18 | The single-argument constructor stores 10 attempts and a 100 ms delay. A null string is refused with `ArgumentNullException("connectionString")`. |
| Sql.ConnectionManager.CreateConnection | src/Core/ConnectionManager.cs:29-35 | Each call builds a new wrapper of a new native connection from the stored string, delay and attempt count. |
| Sql.ConnectionManager.Execute | src/Core/ConnectionManager.cs:37-43 | The action runs once on a fresh connection, which is disposed afterwards. The action's failure surfaces unchanged. |
| Sql.SqlCommandWrapper.constructor | src/Core/SqlCommandWrapper.cs:13-17 | The wrapper keeps the given connection, which may be null, and the native command. |
| Sql.SqlCommandWrapper.SetConnection | src/Core/SqlCommandWrapper.cs:19-35 | Null gives `ArgumentNullException` and a foreign type gives `ArgumentException`, both leaving the connection unchanged. A wrapper replaces it. |
| Sql.SqlCommandWrapper.SetTransaction | src/Core/SqlCommandWrapper.cs:37-47 | The value is cast and stored: null clears it. A foreign type fails the cast with `InvalidCastException` and nothing is stored. No other setting and no execution changes. |
| Sql.SqlCommandWrapper.ExecuteVerb | src/Core/SqlCommandWrapper.cs:98-116 | The execution goes to the native command once. There is no retry and no Open: the native connection gets no driver call, and ends as the execution leaves it. The settings and connection string are unchanged. |
| Sql.SqlCommandWrapper.ExecuteNonQuery | src/Core/SqlCommandWrapper.cs:98-101 | A direct non-query execution: one native execution, no driver call on the connection, the connection as the execution leaves it, and the settings and connection string unchanged. |
| Sql.SqlCommandWrapper.ExecuteReader | src/Core/SqlCommandWrapper.cs:103-106 | A direct reader execution: one native execution, no driver call on the connection, the connection as the execution leaves it, and the settings and connection string unchanged. |
| Sql.SqlCommandWrapper.ExecuteReaderWith | src/Core/SqlCommandWrapper.cs:108-111 | A direct reader-with-behaviour execution: one native execution, no driver call on the connection, the connection as the execution leaves it, and the settings and connection string unchanged. |
| Sql.SqlCommandWrapper.ExecuteScalar | src/Core/SqlCommandWrapper.cs:113-116 | A direct scalar execution: one native execution, no driver call on the connection, the connection as the execution leaves it, and the settings and connection string unchanged. |

## Left out

- I/O: the native driver's network traffic, handshakes and result sets. Each
  native call's outcome is an oracle argument (`faults`, `openFaults`, `exec`,
  `action`).
- Real waiting. The retry strategies' intervals, increments and backoffs
  (including exponential backoff's random jitter) only decide how long to wait,
  so they are stored but not used. `Sql.Do`'s `delay` is likewise not used.
- Logging (`TraceSource`) and `GC.SuppressFinalize`.
- Concurrency, including concurrent use of the shared static default policy.
  No member of the library subscribes to or changes that policy; it is only
  cloned. So `WithDefaultPolicy` takes the shared policy as an argument rather
  than modelling a static field.
- AzureSqlStrategy.ToLower: fixes invariant-culture lower-casing of ASCII
  letters. `ToLower()` in src/Core/AzureSqlStrategy.cs:20 uses the current
  culture. Under Turkish or Azerbaijani, ASCII `I` becomes a dotless `ı`, so an
  upper-case "IS NOT USABLE" or "TIMEOUT EXPIRED" does not match there, while
  `MatchIgnoresCase` says it does. Letters outside ASCII are left unchanged.
- The stock `SqlDatabaseTransientErrorDetectionStrategy` belongs to a foreign
  library. Its verdict on an error is the oracle field
  `ErrorInfo.stockTransient`.
- The catalogue of official transient error numbers in
  src/UnitTests/OfficialTransientErrors.cs is not modelled. The extended
  classifier accepts those errors only through the stock verdict, which is the
  oracle field above. `Detection.Classify` states that the extended classifier
  accepts whatever the stock strategy accepts.
- `SmartRetryPolicy` constructor overloads. The ones taking numbers instead of a
  `RetryStrategy` are represented by the strategy they build: a fixed interval,
  incremental, or exponential backoff. A negative retry count, which the retry
  library rejects, cannot be expressed, because `retryCount` is a `nat`.
- The void `ExecuteAction` overload of the retry library, which
  `ReliableSqlConnection.Open` calls with a void lambda
  (src/Core/ReliableSqlConnection.cs:152), is assumed to delegate to the
  generic `ExecuteAction<TResult>` that src/Core/SmartRetryPolicy.cs:35
  overrides. The model's `Open` therefore runs through
  `SmartRetryPolicy.ExecuteAction`, bookkeeping and annotation included. That
  overload belongs to the retry library and is not part of this model.
- ReliableSql.VerbStep: a failed Open nested inside a command attempt annotates
  that Open's exception with its own retry details before the command's policy
  sees it. That intermediate annotation is not modelled. Only the annotation of
  the exception that finally surfaces is modelled.
- ReliableSql.ReliableSqlCommand.ExecuteVerb returns the command policy's
  notifications (`observed`) and those of the Opens nested in its attempts
  (`openings`) as two sequences. Both policies are clones subscribing the same
  remembered handler, which sees one stream: an attempt's Open retries, then
  the command's next retry, and so on. That interleaving is not modelled.
- ReliableSql.ReliableSqlCommand.ExecuteVerb runs the command against the
  current `Connection`'s native handle. The wrapped native command stays bound
  to the connection that created it, so after `Connection` is reassigned the
  two differ. That difference is not modelled.
- ReliableSqlConnection members `ConnectionTimeout`, `Database`,
  `BeginTransaction`, `ChangeDatabase` and `CreateCommand`'s native command
  settings beyond the driver defaults are pass-throughs to the native driver
  and are not modelled.
- ReliableSqlCommand and SqlCommandWrapper members `Parameters`, `Prepare`,
  `Cancel`, `CreateParameter` and `Dispose` are not modelled. Neither are
  SqlCommandWrapper's property pass-throughs, which are the same as
  ReliableSqlCommand's.
- ReliableSql.ReliableSqlConnection.SetConnectionString does not model
  assigning null. When a string is both malformed and set while the connection
  is open, the model reports the malformed string. Which refusal the driver
  gives then is decided inside the driver.
- Sql.ConnectionManager.CreateConnection does not model a connection string the
  native driver refuses. The wrapper constructor it calls is not in the
  wrapper's file (see below), so it is not known where that refusal would
  surface.
- Opening a native connection that was already disposed: its outcome is left to
  the fault oracle.
- `SimpleRetry.Do` is not part of this model. `Sql.Do` models the contract its
  unit tests pin: at most `maxRetries` attempts, every failure retried, and an
  aggregate of all failures when none completes.
- Sql.Do: the case `maxRetries <= 0`, which no test pins, is modelled as no
  attempt at all.
- `ConnectionManager.CreateConnection` calls a `SqlConnectionWrapper(string,
  TimeSpan, int)` constructor that is not among the wrapper's constructors. It
  is modelled as creating a native connection from the string and wrapping it
  with the stored settings.
- `ConnectionManager.Execute` disposes a `SqlConnectionWrapper`, which is not
  disposable in the wrapper's own file. It is modelled as disposing the
  wrapper's native connection.
- The `Retrying` event of a `ConnectionManager` that the tests use is not
  modelled. Its behaviour is `SmartRetryPolicy`'s.
- An exhausted `SmartRetryPolicy` call rethrows the last failure itself
  (`throw;`, src/Core/SmartRetryPolicy.cs:58), not an aggregate of every
  attempt's error. Only the older `Sql.Do` surfaces an aggregate.
- Sql.SqlCommandWrapper.constructor accepts a null native command or connection
  without checking (src/Core/SqlCommandWrapper.cs:13-17). The model types the
  native command as non-null, and the connection as possibly null.
  `SqlConnectionWrapper`'s constructor does check its connection, and the model
  refuses null there too.
