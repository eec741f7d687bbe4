// Vocabulary shared by every component: exceptions, the outcome of one
// attempt at an operation, and small failure-carrying datatypes.
module Common {

  datatype Option<T> = None | Some(value: T) {
    function GetOr(default: T): T {
      match this
      case Some(v) => v
      case None => default
    }
  }

  datatype Result<T, E> = Success(value: T) | Failure(error: E)

  /** A point in time, in ticks (UTC). */
  type DateTime = nat

  /** A duration in milliseconds; like a .NET TimeSpan it may be negative. */
  type TimeSpan = int

  /** The run-time type of a thrown exception, as far as classification cares. */
  datatype ExceptionType =
    | SqlExceptionType
    | InvalidOperationType
    | OtherType(name: string)

  /**
   * What an exception carries that does not change once it is thrown: its
   * type, its error number, its string form (ToString(), which includes the
   * message) and the verdict of the stock SQL Database transient-error
   * detection strategy on it. That strategy belongs to a foreign library, so
   * its verdict is an oracle attached to the error.
   */
  datatype ErrorInfo = ErrorInfo(
    kind: ExceptionType,
    number: int,
    text: string,
    stockTransient: bool)
  {
    predicate IsSqlException() { kind == SqlExceptionType }
  }

  /** The values stored in an exception's Data dictionary. */
  datatype DataValue =
    | IntValue(i: int)
    | TimeValue(t: DateTime)

  /** A thrown exception: immutable error information and a mutable Data dictionary. */
  class Exception {
    const info: ErrorInfo
    var data: map<string, DataValue>

    constructor (info: ErrorInfo)
      ensures this.info == info && data == map[]
    {
      this.info := info;
      data := map[];
    }
  }

  /** The result of one call that can throw: a returned value or the thrown exception. */
  datatype Outcome<T> = Returned(value: T) | Threw(ex: Exception)

  /**
   * One attempt at a retried operation, seen from outside: the state of the
   * world it leaves behind and what it returned or threw.
   */
  datatype Step<S, T> = Step(next: S, outcome: Outcome<T>)

  /**
   * The argument errors the decorators raise synchronously, before any I/O.
   * An ArgumentNullException built without a parameter name has None.
   */
  datatype ArgumentError =
    | ArgumentNull(paramName: Option<string>)
    | Argument(message: string)
    | InvalidCast(fromType: string)

  /**
   * A value assigned to a property typed by an interface: null, an instance
   * of the class the setter supports, or an instance of some other class
   * (known by its type name).
   */
  datatype Assigned<C> = Null | Supported(instance: C) | Unsupported(typeName: string)
}
