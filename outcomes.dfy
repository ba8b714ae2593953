/** Optional values, and the Python exceptions that the modelled code raises,
    as values. */
module Outcomes {

  /** Python's `Optional[T]`: `None` or a value. */
  datatype Option<+T> = None | Some(value: T)

  /** The exceptions the core raises on its own (not those of external services). */
  datatype Error =
    | ValueError(message: string)
      /** Reading an attribute `name` that objects of class `owner` do not have. */
    | AttributeError(owner: string, name: string)

  /** A call that either returns a value or raises. */
  datatype Result<+T> = Ok(value: T) | Err(error: Error)

  const NO_ACTIVE_SESSION: Error := ValueError("No active conversation session")

  /** `KeywordMatch` has no `relevance_score` attribute. */
  const NO_RELEVANCE_SCORE: Error := AttributeError("KeywordMatch", "relevance_score")

  /** `ScoringResult` has no `coverage_percentage` attribute. */
  const NO_COVERAGE_PERCENTAGE: Error := AttributeError("ScoringResult", "coverage_percentage")
}
