/** The bounded retry loop around SqlPackage (create_dacpac_using_sql_driver).
    Each run of the external tool is reduced to its outcome, supplied as
    succeeds(j) for the j-th run, and each time.sleep(5) to one counted delay. */
module Packaging {

  const DefaultMaxRetries: int := 3

  /** How many runs the loop allows: max_retries, or none when it is not positive. */
  function Budget(maxRetries: int): (n: nat)
    ensures maxRetries > 0 ==> n == maxRetries
    ensures maxRetries <= 0 ==> n == 0
  {
    if maxRetries > 0 then maxRetries else 0
  }

  /** The index of the first run among the first n that succeeds, or n if none does. */
  function FirstSuccess(succeeds: nat -> bool, n: nat): (k: nat)
    ensures k <= n
    ensures forall j :: 0 <= j < k ==> !succeeds(j)
    ensures k < n ==> succeeds(k)
  {
    if n == 0 then 0
    else
      var k := FirstSuccess(succeeds, n - 1);
      if k < n - 1 then k
      else if succeeds(n - 1) then n - 1
      else n
  }

  /** What the step did: runs of the tool, delays slept, package written. */
  datatype Trace = Trace(runs: nat, sleeps: nat, created: bool)

  /** The trace the loop produces. A missing tool means no run and no delay.
      Otherwise the runs stop at the first success and never exceed the budget;
      a failure is followed by a delay only when another run follows, so the
      delays are one fewer than the runs; all runs fail only when the budget is
      used up. */
  function RetryTrace(toolFound: bool, maxRetries: int, succeeds: nat -> bool): (t: Trace)
    ensures !toolFound ==> t == Trace(0, 0, false)
    ensures t.runs <= Budget(maxRetries)
    ensures t.sleeps == if t.runs == 0 then 0 else t.runs - 1
    ensures t.created ==> t.runs > 0 && succeeds(t.runs - 1)
    ensures forall j :: 0 <= j < t.runs && (!t.created || j < t.runs - 1) ==> !succeeds(j)
    ensures toolFound && !t.created ==> t.runs == Budget(maxRetries)
  {
    if !toolFound then Trace(0, 0, false)
    else
      var n := Budget(maxRetries);
      var k := FirstSuccess(succeeds, n);
      if k < n then Trace(k + 1, k, true)
      else Trace(n, if n == 0 then 0 else n - 1, false)
  }

  /** The loop itself: attempt counts the failed runs, as in the source. */
  method CreateDacpac(toolFound: bool, maxRetries: int, succeeds: nat -> bool) returns (runs: nat, sleeps: nat, created: bool)
    ensures Trace(runs, sleeps, created) == RetryTrace(toolFound, maxRetries, succeeds)
  {
    runs, sleeps, created := 0, 0, false;
    if !toolFound {
      return;
    }
    var attempt := 0;
    while attempt < maxRetries
      invariant 0 <= attempt <= Budget(maxRetries)
      invariant runs == attempt && !created
      invariant forall j :: 0 <= j < attempt ==> !succeeds(j)
      invariant sleeps == if attempt == 0 then 0 else if attempt < maxRetries then attempt else attempt - 1
      decreases maxRetries - attempt
    {
      runs := runs + 1;
      if succeeds(attempt) {
        created := true;
        break;
      }
      attempt := attempt + 1;
      if attempt < maxRetries {
        sleeps := sleeps + 1;
      }
    }
  }

  /** With the default of three runs: two failures then a success give three
      runs and two delays; three failures give three runs, two delays and no
      package; a missing tool gives nothing at all. */
  lemma DefaultRetryScenarios(succeeds: nat -> bool)
    ensures (!succeeds(0) && !succeeds(1) && succeeds(2)) ==>
      RetryTrace(true, DefaultMaxRetries, succeeds) == Trace(3, 2, true)
    ensures (!succeeds(0) && !succeeds(1) && !succeeds(2)) ==>
      RetryTrace(true, DefaultMaxRetries, succeeds) == Trace(3, 2, false)
    ensures RetryTrace(false, DefaultMaxRetries, succeeds) == Trace(0, 0, false)
  {
    var t := RetryTrace(true, DefaultMaxRetries, succeeds);
    assert Budget(DefaultMaxRetries) == 3;
    if !succeeds(0) && !succeeds(1) {
      assert t.runs == 3 || !t.created;
    }
  }

  /** A non-positive max_retries means no run, whatever the tool would do. */
  lemma NoBudgetNoRuns(toolFound: bool, maxRetries: int, succeeds: nat -> bool)
    requires maxRetries <= 0
    ensures RetryTrace(toolFound, maxRetries, succeeds) == Trace(0, 0, false)
  {
  }
}
