/** The deposit limit policy of the session program: a global cap on the
    token supply and a per-sender cap on the sender's token balance, both
    inclusive, the global one checked first. */
module Limits {
  import opened Base

  /** `DepositError`; the discriminant is the user error code. */
  datatype DepositError = ExceedUserLimit | ExceedContractLimit

  /** `From<DepositError> for ApiError`: `ApiError::User(error as u16)`. */
  function ToApiError(e: DepositError): (r: ApiError)
    ensures e == ExceedUserLimit ==> r == User(0)
    ensures e == ExceedContractLimit ==> r == User(1)
  {
    User(match e case ExceedUserLimit => 0 case ExceedContractLimit => 1)
  }

  /** Distinct limit errors reach the caller as distinct codes. */
  lemma ApiErrorDistinguishes(e1: DepositError, e2: DepositError)
    requires ToApiError(e1) == ToApiError(e2)
    ensures e1 == e2
  {
  }

  /** One CSPR in motes: `10.pow(9)`. */
  const MULTIPLIER: nat := 1_000_000_000
  const CONTRACT_LIMIT: nat := 200 * MULTIPLIER
  const USER_LIMIT: nat := 100 * MULTIPLIER

  /** The two limit checks of the session program over the current total
      supply, the sender's token balance and the requested amount, with the
      U256 additions that panic on overflow. */
  function AdmitDeposit(totalSupply: nat, senderBalance: nat, amount: nat): (r: Outcome)
    ensures r.Done? <==> totalSupply + amount <= CONTRACT_LIMIT && senderBalance + amount <= USER_LIMIT
    ensures (r == Aborted(Revert(ToApiError(ExceedContractLimit))))
      <==> CONTRACT_LIMIT < totalSupply + amount < U256_LIMIT
    ensures (r == Aborted(Revert(ToApiError(ExceedUserLimit))))
      <==> totalSupply + amount <= CONTRACT_LIMIT && USER_LIMIT < senderBalance + amount < U256_LIMIT
    ensures (r == Aborted(Panic))
      <==> totalSupply + amount >= U256_LIMIT
           || (totalSupply + amount <= CONTRACT_LIMIT && senderBalance + amount >= U256_LIMIT)
  {
    match AddU256(totalSupply, amount)
    case Err(a) => Aborted(a)
    case Ok(total) =>
      if total > CONTRACT_LIMIT then Aborted(Revert(ToApiError(ExceedContractLimit)))
      else match AddU256(senderBalance, amount)
        case Err(a) => Aborted(a)
        case Ok(sender) =>
          if sender > USER_LIMIT then Aborted(Revert(ToApiError(ExceedUserLimit)))
          else Done
  }
}
