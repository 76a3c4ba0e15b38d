/** Value types several components share. */
module Domain {
  /** What a user answers to a confirmation request. */
  datatype Resolution = Confirm | Reject

  /** How safely a provider failure may be retried. */
  datatype ProviderErrorKind = Retryable | Permanent | Ambiguous | Definite
}
