// The extended transient-error classifier (AzureSqlStrategy.IsTransient): the
// stock SQL Database strategy, OR-ed with a case-insensitive search of a
// SqlException's string form for two transport failures that carry no usable
// error number.
module AzureSqlStrategy {
  import opened Common

  const NotUsablePattern: string := "physical connection is not usable"
  const TimeoutPattern: string := "timeout expired"

  /** Lower-casing of one character (ASCII letters only). */
  function LowerChar(c: char): char {
    if 'A' <= c <= 'Z' then (c as int + 32) as char else c
  }

  /** string.ToLower, character by character. */
  function ToLower(s: string): string {
    seq(|s|, i requires 0 <= i < |s| => LowerChar(s[i]))
  }

  /** `p` occurs in `s` starting at index `i`. */
  predicate OccursAt(s: string, p: string, i: int) {
    0 <= i && i + |p| <= |s| && s[i..i + |p|] == p
  }

  /** string.Contains: a search from the left for an occurrence of `p`. */
  function Contains(s: string, p: string): (b: bool)
    ensures b <==> exists i :: OccursAt(s, p, i)
    decreases |s|
  {
    if |p| <= |s| && s[..|p|] == p then
      assert OccursAt(s, p, 0);
      true
    else if s == [] then
      false
    else
      var b := Contains(s[1..], p);
      forall i | OccursAt(s[1..], p, i) ensures OccursAt(s, p, i + 1) {
        assert s[1..][i..i + |p|] == s[i + 1..i + 1 + |p|];
      }
      forall i | OccursAt(s, p, i) && i != 0 ensures OccursAt(s[1..], p, i - 1) {
        assert s[1..][i - 1..i - 1 + |p|] == s[i..i + |p|];
      }
      b
  }

  /**
   * The extended verdict. The stock verdict wins when it says transient;
   * otherwise only a SqlException is inspected, by lower-casing its string
   * form and looking for either pattern.
   */
  function IsTransient(e: ErrorInfo): (r: bool)
    ensures e.stockTransient ==> r
    ensures !e.stockTransient && !e.IsSqlException() ==> !r
    ensures !e.stockTransient && e.IsSqlException() ==>
      (r <==> exists i :: OccursAt(ToLower(e.text), NotUsablePattern, i) || OccursAt(ToLower(e.text), TimeoutPattern, i))
  {
    var isTransient := e.stockTransient;
    if !isTransient && e.IsSqlException() then
      var msg := ToLower(e.text);
      if Contains(msg, NotUsablePattern) then
        true
      else if Contains(msg, TimeoutPattern) then
        true
      else
        isTransient
    else
      isTransient
  }

  /** Lower-casing commutes with taking a slice. */
  lemma LowerOfSlice(s: string, i: int, j: int)
    requires 0 <= i <= j <= |s|
    ensures ToLower(s)[i..j] == ToLower(s[i..j])
  {
  }

  /** An occurrence of `q` inside an occurrence of `p` is an occurrence in the whole string. */
  lemma OccursWithin(s: string, p: string, q: string, i: int, k: int)
    requires OccursAt(s, p, i) && OccursAt(p, q, k)
    ensures OccursAt(s, q, i + k)
  {
    var w := s[i..i + |p|];
    forall t | 0 <= t < |q| ensures s[i + k + t] == q[t] {
      assert w[k + t] == q[t];
    }
  }

  /**
   * Matching ignores case: a SqlException whose string form contains, at
   * any position, any spelling of either pattern that lower-cases to it is
   * transient, whatever the stock verdict.
   */
  lemma {:induction false} MatchIgnoresCase(e: ErrorInfo, variant: string, i: int)
    requires e.IsSqlException()
    requires OccursAt(e.text, variant, i)
    requires ToLower(variant) == NotUsablePattern || ToLower(variant) == TimeoutPattern
    ensures IsTransient(e)
  {
    LowerOfSlice(e.text, i, i + |variant|);
    assert OccursAt(ToLower(e.text), ToLower(variant), i);
  }

  /**
   * Case-insensitivity stated as invariance: two exceptions of the same
   * type with the same stock verdict whose string forms differ only in the
   * case of their letters get the same verdict.
   */
  lemma VerdictIgnoresCase(a: ErrorInfo, b: ErrorInfo)
    requires a.kind == b.kind && a.stockTransient == b.stockTransient
    requires ToLower(a.text) == ToLower(b.text)
    ensures IsTransient(a) == IsTransient(b)
  {
  }
}
