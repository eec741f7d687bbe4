// Constants shared by the retry layer: the keys under which retry details are
// attached to an exception, and the default retry budget.
module Constants {
  /** Key of the retry count attached to a failed operation's exception. */
  const AttemptsKey: string := "GlebTeterin.ReliableSql.Attempts"
  /** Key of the time of the (latest) retry attached to a failed operation's exception. */
  const FirstOccurrenceKey: string := "GlebTeterin.ReliableSql.FirstOccurrence"

  /** Default number of retries of the shared default policy. */
  const DefaultMaxRetries: nat := 10
  /** Default delay between retries, in milliseconds. */
  const DefaultDelayMs: nat := 100
}
