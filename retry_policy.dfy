/** `rele/retry_policy.py`: the validated pair of redelivery backoff bounds. */
module RetryPolicies {
  import opened Wrappers

  datatype RetryPolicy = RetryPolicy(minimumBackoff: int, maximumBackoff: int)

  /** The three `ValueError`s `_guard_against_wrong_parameters` can raise. */
  datatype GuardError =
    | MinimumBackoffNotPositive
    | MaximumBackoffNotPositive
    | MinimumAboveMaximum

  /** `_guard_against_wrong_parameters`: the first check that fails, if any.
      Only zero is rejected; a negative bound passes. */
  function GuardAgainstWrongParameters(minimumBackoff: int, maximumBackoff: int): (r: Option<GuardError>)
    ensures r == Some(MinimumBackoffNotPositive) <==> minimumBackoff == 0
    ensures r == Some(MaximumBackoffNotPositive) <==> minimumBackoff != 0 && maximumBackoff == 0
    ensures r == Some(MinimumAboveMaximum) <==>
              minimumBackoff != 0 && maximumBackoff != 0 && minimumBackoff > maximumBackoff
  {
    if minimumBackoff == 0 then Some(MinimumBackoffNotPositive)
    else if maximumBackoff == 0 then Some(MaximumBackoffNotPositive)
    else if minimumBackoff > maximumBackoff then Some(MinimumAboveMaximum)
    else None
  }

  /** `RetryPolicy(minimum_backoff, maximum_backoff)` as written: construction
      succeeds exactly when neither bound is zero and the minimum does not
      exceed the maximum, and then stores both bounds unchanged. */
  function NewRetryPolicy(minimumBackoff: int, maximumBackoff: int): (r: Result<RetryPolicy, GuardError>)
    ensures r.Success? <==> minimumBackoff != 0 && maximumBackoff != 0 && minimumBackoff <= maximumBackoff
    ensures r.Success? ==> r.value.minimumBackoff == minimumBackoff && r.value.maximumBackoff == maximumBackoff
  {
    match GuardAgainstWrongParameters(minimumBackoff, maximumBackoff)
    case Some(e) => Failure(e)
    case None => Success(RetryPolicy(minimumBackoff, maximumBackoff))
  }

  /** The three pairs the test suite expects to be refused are refused, for
      the reason the corresponding check gives; equal bounds are accepted. */
  lemma RejectedPairs()
    ensures NewRetryPolicy(0, 0) == Failure(MinimumBackoffNotPositive)
    ensures NewRetryPolicy(0, 1) == Failure(MinimumBackoffNotPositive)
    ensures NewRetryPolicy(10, 1) == Failure(MinimumAboveMaximum)
    ensures NewRetryPolicy(5, 5) == Success(RetryPolicy(5, 5))
  {
  }

  /** The guard as written lets negative bounds through, although the class
      documents that only values greater than 0 are accepted. */
  lemma NegativeBackoffAccepted()
    ensures NewRetryPolicy(-10, -1) == Success(RetryPolicy(-10, -1))
  {
  }

  /** The guard as documented: both bounds must be greater than 0. */
  function NewPositiveRetryPolicy(minimumBackoff: int, maximumBackoff: int): (r: Result<RetryPolicy, GuardError>)
    ensures r.Success? <==> 0 < minimumBackoff <= maximumBackoff
    ensures r.Success? ==> r.value == RetryPolicy(minimumBackoff, maximumBackoff)
    ensures r.Success? ==> NewRetryPolicy(minimumBackoff, maximumBackoff) == r
  {
    if minimumBackoff <= 0 then Failure(MinimumBackoffNotPositive)
    else if maximumBackoff <= 0 then Failure(MaximumBackoffNotPositive)
    else if minimumBackoff > maximumBackoff then Failure(MinimumAboveMaximum)
    else Success(RetryPolicy(minimumBackoff, maximumBackoff))
  }
}
