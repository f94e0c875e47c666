/** Tests that are made in a fixed order, of which the first that is not passed decides. */
module OrderedChecks {
  datatype Check<E> = Check(error: E, passed: bool)

  predicate AllPassed<E>(checks: seq<Check<E>>) { forall i :: 0 <= i < |checks| ==> checks[i].passed }

  /** The error is that of the first test that is not passed. */
  ghost predicate FailsFirst<E>(checks: seq<Check<E>>, error: E) {
    exists i :: 0 <= i < |checks| && !checks[i].passed && checks[i].error == error
                && forall j :: 0 <= j < i ==> checks[j].passed
  }

  lemma FailsAt<E>(checks: seq<Check<E>>, i: nat)
    requires i < |checks| && !checks[i].passed && forall j :: 0 <= j < i ==> checks[j].passed
    ensures FailsFirst(checks, checks[i].error) && !AllPassed(checks)
  {
  }

  lemma PassedConcat<E>(a: seq<Check<E>>, b: seq<Check<E>>)
    ensures AllPassed(a + b) <==> AllPassed(a) && AllPassed(b)
  {
    assert forall i :: 0 <= i < |a| ==> (a + b)[i] == a[i];
    assert forall i :: 0 <= i < |b| ==> (a + b)[|a| + i] == b[i];
  }

  lemma FailsInFirst<E>(a: seq<Check<E>>, b: seq<Check<E>>, error: E)
    requires FailsFirst(a, error)
    ensures FailsFirst(a + b, error)
  {
    var i :| 0 <= i < |a| && !a[i].passed && a[i].error == error && forall j :: 0 <= j < i ==> a[j].passed;
    assert forall j :: 0 <= j <= i ==> (a + b)[j] == a[j];
    FailsAt(a + b, i);
  }

  lemma FailsInSecond<E>(a: seq<Check<E>>, b: seq<Check<E>>, error: E)
    requires AllPassed(a) && FailsFirst(b, error)
    ensures FailsFirst(a + b, error)
  {
    var i :| 0 <= i < |b| && !b[i].passed && b[i].error == error && forall j :: 0 <= j < i ==> b[j].passed;
    assert forall j :: 0 <= j < |a| ==> (a + b)[j] == a[j];
    assert forall j :: |a| <= j <= |a| + i ==> (a + b)[j] == b[j - |a|];
    FailsAt(a + b, |a| + i);
  }

  /** No two tests that come first. */
  lemma FirstFailureIsUnique<E>(checks: seq<Check<E>>, a: E, b: E)
    requires FailsFirst(checks, a) && FailsFirst(checks, b)
    ensures a == b && !AllPassed(checks)
  {
  }
}
