# WCSPR vault: custody and peg, modelled in Dafny

WCSPR is a wrapped-CSPR token on the Casper network. A depositor runs a small
session program (`pre_deposit`) that checks two deposit limits. The program
then moves CSPR from the depositor's main purse into a new hand-off purse and
calls the contract's `deposit` entry point with it. `deposit` moves the
hand-off purse's whole balance into the contract's custody purse and mints
that many WCSPR tokens to its immediate caller. `withdraw` burns tokens and
pays the same number of motes from custody back to the caller's account. It
does nothing when the caller holds too few tokens. `init` creates the custody
purse once, guarded by the `initialized` named key.

The model has these modules:

- `Base` (base.dfy) holds the opaque hashes and URefs, the host's coded
  failures (`ApiError`, `Abort`), `Result`/`Outcome`, and the `as_u128` and
  U256 `+` conversions, which panic on overflow.
- `CallStack` (call_stack.dfy) holds call-stack frames, ERC-20 addresses, and
  `rev().nth(1)` written out as `Rev` and `Nth`. It proves that this picks the
  second-to-last frame. It also holds the frame-to-address mapping and
  immediate-caller resolution. contracts/src/helpers.rs repeats these three
  functions word for word, and `get_key`/`set_key` too. One definition models
  both copies.
- `Limits` (limits.dfy) holds `DepositError`, its `ApiError::User` codes and
  the pure `AdmitDeposit` check.
- `Storage` (storage.dfy) holds named keys, storage cells, `get_key` and
  `get_main_purse`, all as lookups over two maps.
- `Vault` (vault.dfy) holds the state `deposit`, `withdraw` and `init` change,
  in one class:
  - the balance of every purse;
  - every account's main purse;
  - the token ledger and its total supply;
  - the contract's named keys and the storage cells;
  - the host's URef allocator.

  The host primitives (`create_purse`, `new_uref`, the two purse transfers)
  and the ERC-20 `mint`/`burn` are methods on that state. `set_key`,
  `set_main_purse` and the three entry points are methods on it too.
  - The host undoes an aborted invocation. `Snapshot`/`Restore` model that,
    and every entry point promises `Snap() == old(Snap())` when it aborts.
  - `Pegged()` is the peg invariant: the `main_purse` named key names a purse
    holding exactly the total supply.
- `PreDeposit` (pre_deposit.dfy) holds the session program's `call`, as a
  method over the vault's state.
- `Scenarios` (scenarios.dfy) holds client methods that re-derive the
  integration tests' outcomes from the contracts alone. It also holds a
  general deposit-then-withdraw round trip.

Named keys and storage cells are kept apart on purpose. A purse is an entry in
`purses`, and a storage cell is an entry in `cells`. Both draw their URefs from
one allocator, so a cell's URef is never a purse.

Where the design description and the code disagree, the model follows the
code:

- The code keeps no cached custody balance (`cspr_balance`).
- `withdraw` checks only the caller's token balance. It has no custody-side
  check: a custody transfer that cannot be paid reverts instead.
- The deposit limits are checked only in the session program. The `deposit`
  entry point has none (`Scenarios.DirectDepositSkipsLimits`).
- `deposit` does not check that custody grew. It ignores the transfer's result
  and mints the hand-off purse's balance.
- The session attributes the deposit to `runtime::get_caller()`, while
  `deposit` and `withdraw` use the immediate caller. For a session calling the
  contract both give the session's account (`CallStack.SessionCallingContract`).
- Token units and motes are the same; there is no decimal scaling.

## Model

| member | source | states |
|---|---|---|
| `CallStack.SecondFromTop` | contracts/src/helpers.rs:46-50 | `into_iter().rev().nth(1)` is the second-to-last frame when there are at least two frames, and nothing otherwise; proved by induction over `rev` and `nth` |
| `CallStack.ImmediateCallStackItem` | contracts/src/wcspr_contract.rs:216-220 | there is an immediate frame exactly when the stack has at least two frames, and it is `stack[|stack|-2]` |
| `CallStack.FrameToAddress` | contracts/src/wcspr_contract.rs:222-239 | session and stored-session frames give an account address with the frame's account hash; a stored-contract frame gives its contract package hash |
| `CallStack.AsAccountHash` | contracts/src/wcspr_contract.rs:144 | an address yields an account hash exactly when it is an account |
| `CallStack.ImmediateCallerAddress` | contracts/src/wcspr_contract.rs:241-249 | resolves exactly when the stack has two or more frames, to the second-to-last frame's address; otherwise fails with the ERC-20 `InvalidContext` |
| `CallStack.SessionCallingContract` | contracts/src/pre_deposit.rs:54-55 | for the stack `[Session(a), StoredContract(p, c)]` the immediate caller is the account `a`, the same as the session's `get_caller` |
| `CallStack.ContractCallingContract` | contracts/src/helpers.rs:52-68 | a contract calling through another contract resolves to its own package, not the session's account |
| `Limits.ToApiError` | contracts/src/pre_deposit.rs:14-23 | `ExceedUserLimit` is `ApiError::User(0)` and `ExceedContractLimit` is `ApiError::User(1)` |
| `Limits.ApiErrorDistinguishes` | contracts/src/pre_deposit.rs:19-23 | distinct limit errors give distinct codes |
| `Limits.AdmitDeposit` | contracts/src/pre_deposit.rs:40-72 | admitted iff supply + amount <= 200·10^9 and balance + amount <= 100·10^9 (both inclusive). Rejected with code 1 iff the global cap is exceeded, whatever the balance. Rejected with code 0 iff only the per-sender cap is exceeded. Panics iff a U256 sum overflows first |
| `Storage.GetKey` | contracts/src/wcspr_contract.rs:192-201 | `None` iff the name is not a named key. A value only when the key is a URef whose cell holds a value of the requested type, and then it is that cell's value. Reverts when the key is not a URef |
| `Storage.GetMainPurse` | contracts/src/helpers.rs:16-20 | succeeds iff `main_purse` is a named key holding a URef, and returns that URef itself; otherwise reverts with `NoneValue` |
| `Vault.Moved` | contracts/src/wcspr_contract.rs:117 | a purse-to-purse transfer: the source loses the amount, the destination gains it, every other purse is unchanged, and no purse is created |
| `Vault.Vault.Mint` | contracts/src/wcspr_contract.rs:123 | adds the amount to the owner's balance and the total supply. When either sum would reach 2^256 it fails with `Overflow` and changes nothing |
| `Vault.Vault.Burn` | contracts/src/wcspr_contract.rs:148 | takes the amount from the owner's balance and the total supply. Fails with `InsufficientBalance` when the balance is too small, and changes nothing |
| `Vault.Vault.SetKey` | contracts/src/wcspr_contract.rs:203-214 | afterwards `get_key` gives the value back. An existing URef key has its cell overwritten, and the named keys stay as they were. A new name gets exactly one new cell, registered under it. A non-URef key reverts and changes nothing |
| `Vault.Vault.SetMainPurse` | contracts/src/helpers.rs:12-14 | afterwards `get_main_purse` returns the purse given; only the `main_purse` named key changes |
| `Vault.Vault.Init` | contracts/src/wcspr_contract.rs:152-162 | when `initialized` is set, nothing changes (idempotent). A failing read of it reverts. On the first call a new, empty purse is created and `get_key("main_purse")` gives it back, but the `main_purse` named key itself then names a storage cell, not a purse. Afterwards `initialized` is set, so a second call changes nothing |
| `Vault.Vault.InitWithMainPurse` | contracts/src/helpers.rs:12-20 | the corrected `init`: on the first call the `main_purse` named key is the new, empty purse and `initialized` is set. From a zero supply this establishes the peg. When already initialised it changes nothing |
| `Vault.Vault.Deposit` | contracts/src/wcspr_contract.rs:100-125 | reverts when the hand-off purse is unknown, `main_purse` is missing or not a URef, the stack has no caller, or the mint overflows. Panics at 2^128 motes. Otherwise it mints the hand-off purse's whole balance `b` to the immediate caller, and supply and balance grow by `b`. Custody gains `b` and the hand-off purse ends at 0 when `main_purse` names a purse; else the purses are untouched while the mint still happens. Keeps the peg |
| `Vault.Vault.Withdraw` | contracts/src/wcspr_contract.rs:127-150 | a silent no-op when the caller's balance is below the amount. Otherwise it reverts for a contract-package caller or an unpayable custody transfer. If neither applies, custody loses `amount`, the caller's main purse gains it, and balance and supply drop by `amount`. Keeps the peg. Panics at 2^128; reverts without a caller or a `main_purse` URef |
| `PreDeposit.HandOff` | contracts/src/pre_deposit.rs:74-89 | the net purse effect of the hand-off. The sender loses `b`; custody gains `b` when it is a purse, and otherwise `b` stays in the hand-off purse. `b` is the requested amount when the sender's purse could pay it, and 0 when it could not |
| `PreDeposit.Call` | contracts/src/pre_deposit.rs:25-90 | panics at 2^128 motes. Reverts on a key that is not a contract hash. Any limit rejection is returned unchanged, with no purse created and the sender's purse untouched. Once admitted, the sender is credited exactly what reached the hand-off purse, and the purses settle as in `HandOff`. Keeps the peg |
| `Scenarios.DepositCredits` | tests/src/integration_tests.rs:23-41 | depositing 100 motes gives 100 tokens, supply 100 and 100 motes in custody |
| `Scenarios.UserLimitBoundary` | tests/src/integration_tests.rs:43-71 | 101 CSPR is rejected with user code 0; exactly 100 CSPR is admitted |
| `Scenarios.UserLimitAcrossDeposits` | tests/src/integration_tests.rs:73-94 | a second deposit of 55 CSPR is rejected with code 0, and the first 55 CSPR stay credited |
| `Scenarios.ContractLimitFirst` | tests/src/integration_tests.rs:96-150 | once two accounts have filled the 200 CSPR cap, a depositor with no tokens is rejected with code 1 |
| `Scenarios.WithdrawPart` | tests/src/integration_tests.rs:152-182 | deposit 42, withdraw 12: 30 tokens and 30 motes in custody remain, and the account has its 12 motes back |
| `Scenarios.WithdrawTooMuch` | contracts/src/wcspr_contract.rs:141-149 | withdrawing more than one holds succeeds and changes nothing |
| `Scenarios.InitTwice` | contracts/src/wcspr_contract.rs:153-162 | a second `init` succeeds and leaves the state exactly as the first left it |
| `Scenarios.DirectDepositSkipsLimits` | contracts/src/wcspr_contract.rs:100-125 | calling `deposit` directly with one's own 500 CSPR purse mints 500 CSPR of tokens, past both caps |
| `Scenarios.InitAsWrittenLeavesDepositsUnbacked` | contracts/src/wcspr_contract.rs:109-117 | after `init` as written, a 100-mote deposit mints 100 tokens while `main_purse` names no purse and the motes stay in the hand-off purse; a withdrawal then reverts with `Transfer` |
| `Scenarios.DepositThenWithdraw` | tests/src/integration_tests.rs:152-182 | after a deposit of `b` the withdrawal of `b` goes through. Supply, the caller's tokens and custody return to their old values and the peg holds. The `b` motes end in the caller's main purse |

## Findings

| source | as written | input that shows it | evidently intended | confidence | as-written member | corrected member |
|---|---|---|---|---|---|---|
| contracts/src/wcspr_contract.rs:158 | `init` registers the new purse with `set_key`, which stores the purse's URef inside a new storage cell. `deposit` (lines 112-117) and `withdraw` (lines 138-147) instead use the `main_purse` named key's own URef, the cell, as the custody purse. The deposit transfer into it fails, its result is discarded and the mint goes ahead. The withdrawal transfer from it reverts | install, `init`, then the session deposits 100 motes from a funded account | the `main_purse` named key is the custody purse itself, as `set_main_purse`/`get_main_purse` in helpers.rs:12-20 pair them; deposits are then backed and withdrawals pay out | medium; not executed | `Scenarios.InitAsWrittenLeavesDepositsUnbacked` (on `Vault.Vault.Init`) | `Vault.Vault.InitWithMainPurse` |

The TODO comments at contracts/src/wcspr_contract.rs:109-110 and 115 point at
this spot. The scenarios other than the one above use the corrected `init`.
Under it, `Deposit`, `Withdraw` and `PreDeposit.Call` are proved to keep
`Pegged()`.

## Left out

- The ERC-20 entry points `name`, `symbol`, `decimals`, `total_supply`,
  `balance_of`, `transfer`, `approve`, `allowance` and `transfer_from` are not
  modelled. They delegate to the `casper_erc20` library, which is not part of
  this model. `total_supply` and `balance_of` appear only as reads of the
  ledger state.
- `Vault.Vault.Mint` and `Vault.Vault.Burn` follow the checked U256 arithmetic
  of the ERC-20 library as assumed here. The library's code is not part of
  this model, and the numeric values of its error codes are left out.
- The installer `call` (`ERC20::install_custom` and the cross-contract `init`)
  is left out, and so is its initial token supply. A model vault starts with
  no tokens and no named keys.
- contracts/src/entry_points.rs only declares entry points, so it is not
  modelled. Neither is the commented-out first-caller variant in
  contracts/src/pre_deposit.rs:92-128, which is dead code.
- URef access rights and the host's forged-reference check are not modelled.
  So `deposit` accepts any purse URef, and the peg clause of
  `Vault.Vault.Deposit` is stated only when the hand-off purse differs from
  custody.
- `Vault.Vault.Withdraw`: its peg clause assumes the caller's main purse is
  not the custody purse, a case access rights exclude and the model does not.
- `PreDeposit.Call`: the model's host holds one stored contract. A contract
  hash other than the vault's therefore aborts with `ContractNotFound`,
  instead of running some other contract.
- Runtime arguments are typed parameters of the methods, so argument
  decoding errors are not modelled.
- Host error codes are named for their cause:
  - `NoneValue` stands for `ApiError::None`.
  - `Deserialize` stands for a stored value of the wrong type.
  - `Transfer` stands for a failed purse transfer.

  Their numeric values are not modelled.
- `create_purse` is modelled as adding a balance entry only, with no storage
  cell. Purse balances are unbounded naturals; the host's U512 limit is not
  modelled.
- A transfer to an account the host does not know yet creates that account
  with a new main purse. The host's other account rules, such as minimum
  amounts, are left out.
- Gas, payment, the wasm entry-point plumbing and the test fixture are not
  modelled.
