// The error-detection strategies a retry policy can be configured with, and
// the catalogues of transient errors the unit tests classify.
module Detection {
  import opened Common
  import opened AzureSqlStrategy

  /** Transient-error detection strategies (ITransientErrorDetectionStrategy implementations). */
  datatype DetectionStrategy =
    | AzureSql                          // the extended classifier of this library
    | StockSqlDatabase                  // the stock SQL Database strategy alone
    | CatchAll                          // every error is transient (a test strategy)
    | SqlErrorNumbers(codes: set<int>)  // SqlExceptions with listed numbers (a test strategy)

  /**
   * The verdict of strategy `s` on error `e`. The extended classifier
   * accepts everything the stock strategy accepts, and adds nothing but
   * SqlExceptions to it.
   */
  function Classify(s: DetectionStrategy, e: ErrorInfo): (r: bool)
    ensures s == CatchAll ==> r
    ensures s == StockSqlDatabase ==> r == e.stockTransient
    ensures s == AzureSql && e.stockTransient ==> r
    ensures s == AzureSql && !e.IsSqlException() ==> r == e.stockTransient
    ensures s.SqlErrorNumbers? ==> (r <==> e.IsSqlException() && e.number in s.codes)
  {
    match s
    case AzureSql => AzureSqlStrategy.IsTransient(e)
    case StockSqlDatabase => e.stockTransient
    case CatchAll => true
    case SqlErrorNumbers(codes) => e.IsSqlException() && e.number in codes
  }

  /** The two catalogued messages that carry no transient error number. */
  const NotUsableMessage: string :=
    "A transport-level error has occurred when receiving results from the server. "
    + "(provider: Session Provider, error: 19 - " + NotUsableVariant + ")"
  const TimeoutMessage: string :=
    "Timeout expired"
    + ".  The timeout period elapsed prior to completion of the operation or the server is not responding."
  const UnofficialMessages: seq<string> := [NotUsableMessage, TimeoutMessage]

  /**
   * A SqlException whose string form contains either catalogued unofficial
   * message is transient for the extended classifier, even when the stock
   * strategy alone rejects it (as its tests pin).
   */
  lemma {:induction false} UnofficialMessagesAreTransient(e: ErrorInfo, k: int, j: int)
    requires e.IsSqlException()
    requires 0 <= k < |UnofficialMessages|
    requires OccursAt(e.text, UnofficialMessages[k], j)
    ensures Classify(AzureSql, e)
  {
    if k == 0 {
      var variant := NotUsableSpelling();
      OccursWithin(e.text, NotUsableMessage, variant, j, 118);
      MatchIgnoresCase(e, variant, j + 118);
    } else {
      var variant := TimeoutSpelling();
      OccursWithin(e.text, TimeoutMessage, variant, j, 0);
      MatchIgnoresCase(e, variant, j);
    }
  }

  /** The not-usable message spells the first pattern with a capital letter, at offset 118. */
  lemma NotUsableSpelling() returns (variant: string)
    ensures OccursAt(NotUsableMessage, variant, 118) && ToLower(variant) == NotUsablePattern
  {
    variant := NotUsableVariant;
    NotUsableVariantOccurs();
    NotUsableVariantLowers();
  }

  const NotUsableVariant: string := "Physical connection is not usable"

  lemma NotUsableVariantOccurs()
    ensures OccursAt(NotUsableMessage, NotUsableVariant, 118)
  {
    var prefix := "A transport-level error has occurred when receiving results from the server. "
      + "(provider: Session Provider, error: 19 - ";
    assert |prefix| == 118;
    assert NotUsableMessage == prefix + NotUsableVariant + ")";
    assert NotUsableMessage[118..118 + |NotUsableVariant|] == NotUsableVariant;
  }

  lemma NotUsableVariantLowers()
    ensures ToLower(NotUsableVariant) == NotUsablePattern
  {
    forall i | 0 <= i < |NotUsablePattern| ensures ToLower(NotUsableVariant)[i] == NotUsablePattern[i] {
    }
  }

  /** The timeout message starts with the second pattern, capitalised. */
  lemma TimeoutSpelling() returns (variant: string)
    ensures OccursAt(TimeoutMessage, variant, 0) && ToLower(variant) == TimeoutPattern
  {
    variant := "Timeout expired";
    assert OccursAt(TimeoutMessage, variant, 0);
    forall i | 0 <= i < |TimeoutPattern| ensures ToLower(variant)[i] == TimeoutPattern[i] {
    }
  }
}
