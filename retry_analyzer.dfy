/** The test runner's retry hook: a failed test is run again while the
    analyzer's counter is below a bound read once from the `retry.count`
    system property. */
module Retry {
  import opened Wrappers
  import opened JavaText

  /** `getMaxRetryCount`: the `retry.count` system property as given (it is not
      trimmed), "2" when absent; a value `Integer.parseInt` rejects also gives 2. */
  function MaxRetryCount(system: map<string, string>): (r: int)
    ensures InInt32(r)
    ensures "retry.count" !in system ==> r == 2
    ensures "retry.count" in system && ParseInt(system["retry.count"]).None? ==> r == 2
    ensures "retry.count" in system && ParseInt(system["retry.count"]).Some? ==>
              r == ParseInt(system["retry.count"]).value
  {
    ParseIntOfIntToString(2);
    assert IntToString(2) == "2";
    var text := if "retry.count" in system then system["retry.count"] else "2";
    match ParseInt(text)
    case Some(n) => n
    case None => 2
  }

  /** A padded value is not an `int` literal, so " 3" still gives the default 2. */
  lemma PaddedRetryCountFallsBack(system: map<string, string>)
    requires "retry.count" in system && |system["retry.count"]| > 0 && system["retry.count"][0] == ' '
    ensures MaxRetryCount(system) == 2
  {
  }

  /** The most retries a bound permits. */
  function Allowance(maxRetryCount: int): nat {
    if maxRetryCount < 0 then 0 else maxRetryCount
  }

  /** `RetryAnalyzer`: one per test method. */
  class RetryAnalyzer {
    var retryCount: int
    /** `MAX_RETRY_COUNT`, fixed when the class is loaded. */
    const maxRetryCount: int

    /** The counter never leaves `0 .. Allowance(maxRetryCount)`. */
    ghost predicate Valid()
      reads this
    {
      0 <= retryCount <= Allowance(maxRetryCount)
    }

    constructor (system: map<string, string>)
      ensures Valid()
      ensures retryCount == 0 && maxRetryCount == MaxRetryCount(system)
    {
      retryCount := 0;
      maxRetryCount := MaxRetryCount(system);
    }

    /** `retry`: grants another run and counts it while the counter is below the
        bound; otherwise refuses and changes nothing. */
    method Retry() returns (retried: bool)
      requires Valid()
      modifies this
      ensures Valid()
      ensures retried <==> old(retryCount) < maxRetryCount
      ensures retryCount == if retried then old(retryCount) + 1 else old(retryCount)
      ensures retried == Outcomes(maxRetryCount, old(retryCount), 1)[0]
      ensures retryCount == AfterRetry(maxRetryCount, old(retryCount))
    {
      if retryCount < maxRetryCount {
        retryCount := retryCount + 1;
        return true;
      }
      return false;
    }

    /** `getRetryCount`. */
    method GetRetryCount() returns (count: int)
      requires Valid()
      ensures count == retryCount && 0 <= count <= Allowance(maxRetryCount)
    {
      count := retryCount;
    }

    /** `resetRetryCount`. */
    method ResetRetryCount()
      modifies this
      ensures Valid() && retryCount == 0
    {
      retryCount := 0;
    }
  }

  // ---------------------------------------------------------------------------
  // Successive calls, as the runner makes them
  // ---------------------------------------------------------------------------

  /** The counter after one `retry` call from `count`. */
  function AfterRetry(maxRetryCount: int, count: int): int {
    if count < maxRetryCount then count + 1 else count
  }

  /** The results of `n` successive `retry` calls starting with counter `count`. */
  function Outcomes(maxRetryCount: int, count: int, n: nat): (r: seq<bool>)
    ensures |r| == n
    decreases n
  {
    if n == 0 then [] else [count < maxRetryCount] + Outcomes(maxRetryCount, AfterRetry(maxRetryCount, count), n - 1)
  }

  function CountTrue(s: seq<bool>): nat {
    if s == [] then 0 else (if s[0] then 1 else 0) + CountTrue(s[1..])
  }

  function Min(a: int, b: int): int {
    if a < b then a else b
  }

  /** `n` calls grant exactly as many retries as are left below the bound, and
      no more than `n`. */
  lemma {:induction false} GrantedRetries(maxRetryCount: int, count: int, n: nat)
    ensures CountTrue(Outcomes(maxRetryCount, count, n)) == Min(n, Allowance(maxRetryCount - count))
    decreases n
  {
    if n > 0 {
      var s := Outcomes(maxRetryCount, count, n);
      GrantedRetries(maxRetryCount, AfterRetry(maxRetryCount, count), n - 1);
      assert s[1..] == Outcomes(maxRetryCount, AfterRetry(maxRetryCount, count), n - 1);
    }
  }

  /** A fresh analyzer grants at most `Allowance(maxRetryCount)` retries, however
      often it is asked. */
  lemma AtMostAllowance(maxRetryCount: int, n: nat)
    ensures CountTrue(Outcomes(maxRetryCount, 0, n)) <= Allowance(maxRetryCount)
  {
    GrantedRetries(maxRetryCount, 0, n);
  }

  /** A negative (or zero) bound refuses every call. */
  lemma {:induction false} NonPositiveBoundNeverRetries(maxRetryCount: int, count: nat, n: nat, i: nat)
    requires maxRetryCount <= 0 && i < n
    ensures !Outcomes(maxRetryCount, count, n)[i]
    decreases n
  {
    if i > 0 {
      NonPositiveBoundNeverRetries(maxRetryCount, count, n - 1, i - 1);
    }
  }

  /** Once a call is refused, every later call is refused too (until a reset
      starts a new sequence from 0). */
  lemma {:induction false} RefusalIsFinal(maxRetryCount: int, count: int, n: nat, i: nat, j: nat)
    requires i <= j < n && !Outcomes(maxRetryCount, count, n)[i]
    ensures !Outcomes(maxRetryCount, count, n)[j]
    decreases n
  {
    var next := AfterRetry(maxRetryCount, count);
    if i > 0 {
      RefusalIsFinal(maxRetryCount, next, n - 1, i - 1, j - 1);
    } else if j > 0 {
      assert next == count;
      RefusalIsFinal(maxRetryCount, next, n - 1, 0, j - 1);
    }
  }

  /** The counter after `n` calls from 0 is the number of retries granted, and
      stays within the allowance. */
  function CountAfter(maxRetryCount: int, count: int, n: nat): int
    decreases n
  {
    if n == 0 then count else CountAfter(maxRetryCount, AfterRetry(maxRetryCount, count), n - 1)
  }

  lemma {:induction false} CountAfterIsGranted(maxRetryCount: int, count: int, n: nat)
    ensures CountAfter(maxRetryCount, count, n) == count + CountTrue(Outcomes(maxRetryCount, count, n))
    decreases n
  {
    if n > 0 {
      var s := Outcomes(maxRetryCount, count, n);
      CountAfterIsGranted(maxRetryCount, AfterRetry(maxRetryCount, count), n - 1);
      assert s[1..] == Outcomes(maxRetryCount, AfterRetry(maxRetryCount, count), n - 1);
    }
  }

  lemma CounterWithinAllowance(maxRetryCount: int, n: nat)
    ensures 0 <= CountAfter(maxRetryCount, 0, n) <= Allowance(maxRetryCount)
  {
    CountAfterIsGranted(maxRetryCount, 0, n);
    GrantedRetries(maxRetryCount, 0, n);
  }
}
