/** Outcomes: the error values of the service and the success/failure wrapper they travel in. */
module Results {

  datatype Error =
    // escrow
    | InvalidAmount | EscrowNotFound | DuplicateShipment | InvalidTransition | EscrowAmountMismatch
    | PayerMismatch | InsufficientPayerFunds | NoEscrowBalance | RefundExceedsBalance
    // ledger
    | EmptyJournal | InvalidEntry | UnbalancedJournal | DuplicateJournal | SumOverflow
    // payment
    | PaymentInvalidInput | OrderNotFound | InvalidPurpose | AmountMismatch | EscrowNotReady
    | ProviderVerifyFailed | ProviderRequestFailed | DuplicateEvent
    // withdrawal
    | WithdrawalInvalidInput | WithdrawalNotFound | InsufficientWallet | UserInactive | KycNotApproved
    // promo credit
    | CreditInvalidInput | GrantNotFound | DuplicateGrant | AlreadyReversed
    // a commit, or a single statement, that the database did not carry out
    | CommitFailed
    // a generated primary key that already exists
    | DuplicateId
    // treasury
    | UnsupportedCurrency

  datatype Option<+T> = None | Some(value: T)

  datatype Result<+T> = Ok(value: T) | Err(error: Error) {
    predicate IsFailure() {
      Err?
    }

    function PropagateFailure<U>(): Result<U>
      requires Err?
    {
      Err(error)
    }

    function Extract(): T
      requires Ok?
    {
      value
    }
  }
}
