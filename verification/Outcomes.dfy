/** Results of contract calls: a value, or the error that makes the host undo the invocation. */
module Outcomes {

  datatype Option<+T> = None | Some(value: T)

  /** The error codes the modelled entry points return (contracts/shared/src/errors.rs), and
      `TransferFailed` / `HostTrap` for a token contract that rejects a transfer and for a
      panic inside the host: both abort the invocation exactly as an error code does. */
  datatype KoraError =
    | Unauthorized | NotAdmin | NotVerifier | ProtocolPaused
    | InvoiceNotFound | InvoiceAlreadyExists | InvalidInvoiceStatus | InvoiceExpired
    | InvalidAmount | InvalidDueDate | InvalidRiskScore | InvoiceFrozen
    | ListingNotFound | ListingAlreadyCancelled | FundingDeadlinePassed | InsufficientFunds
    | ExceedsFundingTarget | ListingFullyFunded | FundingNotExpired | RefundAlreadyClaimed
    | NoContribution
    | PoolNotFound | PoolAlreadyClosed | RepaymentAlreadyMade | InsufficientPoolBalance
    | PositionNotFound | SaleAlreadyListed | SaleNotFound
    | InvalidFeeRate | TokenNotWhitelisted | WithdrawalRateLimitExceeded
    | WithdrawalCapTimelockNotElapsed | NoCapChangeProposed
    | SMENotRegistered | ComplianceNotAttested | CreditLimitExceeded
    | ArithmeticOverflow | ArithmeticUnderflow | InvalidAddress | AlreadyInitialized
    | NotInvoiceOwner | EmptyBytes | EmptyString | FieldTooLong
    | ParameterProposalNotFound | ParameterProposalExecuted | AlreadyVoted
    | GovernanceThresholdNotMet | GovernanceTimelockNotElapsed | InvalidParameterValue
    | CancellationPending | NoCancellationPending
    | InvalidThreshold | ProposalNotFound | ProposalAlreadyExecuted | ProposalExpired
    | AlreadyApproved | ThresholdNotMet | MultisigNotConfigured | SignerNotFound
    | AlreadyPaused | NotPaused | RoleNotAssigned
    | TransferFailed | HostTrap

  datatype Result<+T> = Ok(value: T) | Err(error: KoraError) {
    predicate IsFailure() {
      Err?
    }

    function PropagateFailure<U>(): Result<U>
      requires Err?
    {
      Err(error)
    }

    function Extract(): T
      requires Ok?
    {
      value
    }
  }

  /** What an entry point reports to its caller. */
  datatype Status = Done | Failed(error: KoraError)

  /** The status of a specification's result. */
  function StatusOf<T>(r: Result<T>): Status {
    match r
    case Ok(_) => Done
    case Err(e) => Failed(e)
  }

  /** Storage after an invocation: the new contents if it commits, the old ones otherwise. */
  function Commit<T>(before: T, r: Result<T>): T {
    match r
    case Ok(after) => after
    case Err(_) => before
  }
}
