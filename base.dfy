/** Identifiers, failure values and the fixed-width integer conversions the
    vault relies on. Hashes and unforgeable references (URefs) are opaque
    numbers: only their equality matters to the vault. */
module Base {

  /** An unforgeable reference: names a purse or a storage cell. */
  type URef = nat
  type AccountHash = nat
  type PackageHash = nat
  type ContractHash = nat

  /** 2^128 and 2^256: the first values that no longer fit a u128 / U256. */
  const U128_LIMIT: nat := 0x1_0000_0000_0000_0000_0000_0000_0000_0000
  const U256_LIMIT: nat := 0x1_0000_0000_0000_0000_0000_0000_0000_0000_0000_0000_0000_0000_0000_0000_0000_0000

  datatype Option<T> = None | Some(value: T)

  /** The error codes of the ERC-20 library that deposit and withdraw can surface. */
  datatype Erc20Error = InvalidContext | InsufficientBalance | Overflow

  /** The host's coded failures, as far as the vault can raise them.
      `NoneValue` is the code a failed `unwrap_or_revert` on an empty option
      reverts with; `User(code)` is a contract-defined code. */
  datatype ApiError =
    | NoneValue
    | UnexpectedKeyVariant
    | Deserialize
    | Transfer
    | ContractNotFound
    | User(code: nat)
    | Erc20(error: Erc20Error)

  /** Why an invocation stopped: a coded revert or a panic (integer overflow). */
  datatype Abort = Revert(error: ApiError) | Panic

  datatype Result<T> = Ok(value: T) | Err(abort: Abort)

  /** The end of an entry point: it returned, or it aborted. */
  datatype Outcome = Done | Aborted(abort: Abort)

  /** `U512::as_u128`: panics when the value does not fit 128 bits. */
  function AsU128(x: nat): Result<nat>
  {
    if x < U128_LIMIT then Ok(x) else Err(Panic)
  }

  /** `+` on U256: panics on overflow. */
  function AddU256(x: nat, y: nat): Result<nat>
  {
    if x + y < U256_LIMIT then Ok(x + y) else Err(Panic)
  }
}
