/** Classification of a failed agent invocation by the text of the error:
    Python's `"token" in str(e)` and the three-way choice in `main`. */
module Errors {

  import opened Text

  /** The error codes the client recognises in an error's text. */
  const DependencyFailedToken := "dependencyFailedException"
  const ThrottlingToken := "throttlingException"

  /** What `main` does with an invocation error: show one of the two
      popups, or raise the error again. */
  datatype Handling = DependencyFailed | Throttled | Reraise(message: string)

  /** The dependency-failure code wins when both codes appear; an error
      naming neither is re-raised with its text unchanged. */
  function ClassifyInvocationError(message: string): (h: Handling)
    ensures h == DependencyFailed <==> Contains(message, DependencyFailedToken)
    ensures h == Throttled <==>
      !Contains(message, DependencyFailedToken) && Contains(message, ThrottlingToken)
    ensures h.Reraise? <==>
      !Contains(message, DependencyFailedToken) && !Contains(message, ThrottlingToken)
    ensures h.Reraise? ==> h.message == message
  {
    if Contains(message, DependencyFailedToken) then DependencyFailed
    else if Contains(message, ThrottlingToken) then Throttled
    else Reraise(message)
  }

  /** A classified error is never re-raised, and the classification depends
      only on which codes occur in the text. */
  lemma ClassifiedByTokens(m1: string, m2: string)
    requires Contains(m1, DependencyFailedToken) == Contains(m2, DependencyFailedToken)
    requires Contains(m1, ThrottlingToken) == Contains(m2, ThrottlingToken)
    requires Contains(m1, DependencyFailedToken) || Contains(m1, ThrottlingToken)
    ensures ClassifyInvocationError(m1) == ClassifyInvocationError(m2)
    ensures !ClassifyInvocationError(m1).Reraise?
  {
  }

  /** The dependency-failure code takes priority wherever the two codes
      stand in the text. */
  lemma DependencyFailedWins(a: string, b: string, c: string)
    ensures ClassifyInvocationError(a + DependencyFailedToken + b + ThrottlingToken + c) == DependencyFailed
    ensures ClassifyInvocationError(a + ThrottlingToken + b + DependencyFailedToken + c) == DependencyFailed
  {
    ContainsInside(a, DependencyFailedToken, b + ThrottlingToken + c);
    assert a + DependencyFailedToken + b + ThrottlingToken + c
        == a + DependencyFailedToken + (b + ThrottlingToken + c);
    ContainsInside(a + ThrottlingToken + b, DependencyFailedToken, c);
  }

  /** An example: the bare throttling code is classified as throttling. */
  lemma ThrottlingCodeIsThrottled()
    ensures ClassifyInvocationError(ThrottlingToken) == Throttled
  {
    ShorterNotContained(ThrottlingToken, DependencyFailedToken);
    assert Contains(ThrottlingToken, ThrottlingToken);
  }
}
