// Exception annotation: the retry details a failed operation carries out of
// the policy, written into the exception's Data dictionary.
module Extensions {
  import opened Common
  import opened Constants

  /** The Data dictionary after the two keyed writes of AddRetryDetails. */
  function WithRetryDetails(data: map<string, DataValue>, attempts: int, firstOccurrence: DateTime)
    : (d: map<string, DataValue>)
    ensures AttemptsKey in d && d[AttemptsKey] == IntValue(attempts)
    ensures FirstOccurrenceKey in d && d[FirstOccurrenceKey] == TimeValue(firstOccurrence)
    ensures d.Keys == data.Keys + {AttemptsKey, FirstOccurrenceKey}
    ensures forall k :: k in data && k != AttemptsKey && k != FirstOccurrenceKey ==> d[k] == data[k]
  {
    data[AttemptsKey := IntValue(attempts)][FirstOccurrenceKey := TimeValue(firstOccurrence)]
  }

  /** Writes the attempt count and the occurrence time into the exception's Data, in place. */
  method AddRetryDetails(ex: Exception, attempts: int, firstOccurrence: DateTime)
    modifies ex
    ensures ex.data == WithRetryDetails(old(ex.data), attempts, firstOccurrence)
  {
    ex.data := ex.data[AttemptsKey := IntValue(attempts)];
    ex.data := ex.data[FirstOccurrenceKey := TimeValue(firstOccurrence)];
  }

  /**
   * Later annotations win: annotating twice leaves what annotating once
   * with the second arguments leaves, so repeating a call is idempotent.
   */
  lemma LastAnnotationWins(data: map<string, DataValue>, a1: int, t1: DateTime, a2: int, t2: DateTime)
    ensures WithRetryDetails(WithRetryDetails(data, a1, t1), a2, t2) == WithRetryDetails(data, a2, t2)
  {
    var l := WithRetryDetails(WithRetryDetails(data, a1, t1), a2, t2);
    var r := WithRetryDetails(data, a2, t2);
    assert l.Keys == r.Keys;
    forall k | k in l ensures l[k] == r[k] {
      if k != AttemptsKey && k != FirstOccurrenceKey {
        assert l[k] == data[k];
      }
    }
  }

  /** Repeating the annotation with the same arguments changes nothing. */
  lemma AnnotationIsIdempotent(data: map<string, DataValue>, attempts: int, t: DateTime)
    ensures WithRetryDetails(WithRetryDetails(data, attempts, t), attempts, t) == WithRetryDetails(data, attempts, t)
  {
    LastAnnotationWins(data, attempts, t, attempts, t);
  }
}
