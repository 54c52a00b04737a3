/** Client code over the vault: the behaviours its integration tests check,
    derived from the contracts of the entry points alone. */
module Scenarios {
  import opened Base
  import opened CallStack
  import opened Storage
  import opened Limits
  import opened Vault
  import opened PreDeposit

  const PACKAGE: PackageHash := 7
  const CONTRACT: ContractHash := 8
  const ALI: AccountHash := 1
  const BOB: AccountHash := 2
  const JOE: AccountHash := 3
  /** Each account starts with 500 CSPR in its main purse. */
  const FUNDS: nat := 500 * MULTIPLIER

  /** The call stack of a session run by `account` that calls the vault. */
  function SessionStack(account: AccountHash): seq<Frame>
  {
    [Session(account), StoredContract(PACKAGE, CONTRACT)]
  }

  /** A vault next to three funded accounts; URefs from 100 on are unused. */
  method Installed() returns (v: Vault)
    ensures fresh(v) && v.Valid()
    ensures v.contractHash == CONTRACT && v.packageHash == PACKAGE
    ensures v.Snap() == Snapshot(map[10 := FUNDS, 11 := FUNDS, 12 := FUNDS], map[ALI := 10, BOB := 11, JOE := 12],
                                 map[], 0, map[], map[], 100)
  {
    v := new Vault(PACKAGE, CONTRACT, map[10 := FUNDS, 11 := FUNDS, 12 := FUNDS],
                   map[ALI := 10, BOB := 11, JOE := 12], 100);
  }

  /** The balance of the purse the `main_purse` named key holds (0 when it is
      not a purse). */
  function Custody(v: Vault): nat
    reads v
  {
    var main := GetMainPurse(v.namedKeys);
    if main.Ok? && main.value in v.purses then v.purses[main.value] else 0
  }

  /** A vault initialised with its main purse registered as the named key. */
  method Initialised() returns (v: Vault)
    ensures fresh(v) && v.Valid() && v.Pegged()
    ensures v.contractHash == CONTRACT && v.packageHash == PACKAGE
    ensures v.totalSupply == 0 && v.balances == map[] && Custody(v) == 0
    ensures GetMainPurse(v.namedKeys) == Ok(100) && v.nextUref == 102
    ensures v.accountPurses == map[ALI := 10, BOB := 11, JOE := 12]
    ensures v.purses == map[10 := FUNDS, 11 := FUNDS, 12 := FUNDS, 100 := 0]
  {
    v := Installed();
    var r := v.InitWithMainPurse();
  }

  /** Depositing 100 motes credits 100 tokens and puts 100 motes in custody. */
  method DepositCredits() returns (r: Outcome, tokens: nat, custody: nat, supply: nat)
    ensures r.Done? && tokens == 100 && custody == 100 && supply == 100
  {
    var v := Initialised();
    r := Call(v, ALI, 100, HashKey(CONTRACT));
    tokens, custody, supply := v.BalanceOf(Account(ALI)), Custody(v), v.totalSupply;
  }

  /** The per-account cap is inclusive: 100 CSPR is admitted, 101 CSPR is
      rejected with user code 0. */
  method UserLimitBoundary() returns (exact: Outcome, over: Outcome)
    ensures exact.Done? && over == Aborted(Revert(User(0)))
  {
    var v := Initialised();
    over := Call(v, ALI, 101 * MULTIPLIER, HashKey(CONTRACT));
    exact := Call(v, ALI, 100 * MULTIPLIER, HashKey(CONTRACT));
  }

  /** Two deposits of 55 CSPR by one account: the second exceeds the
      per-account cap and leaves the state as it was. */
  method UserLimitAcrossDeposits() returns (first: Outcome, second: Outcome, tokens: nat)
    ensures first.Done? && second == Aborted(Revert(User(0))) && tokens == 55 * MULTIPLIER
  {
    var v := Initialised();
    first := Call(v, ALI, 55 * MULTIPLIER, HashKey(CONTRACT));
    second := Call(v, ALI, 55 * MULTIPLIER, HashKey(CONTRACT));
    tokens := v.BalanceOf(Account(ALI));
  }

  /** Two accounts fill the global cap; a third account with no tokens of its
      own is rejected with the contract-limit code 1. */
  method ContractLimitFirst() returns (ali: Outcome, bob: Outcome, joe: Outcome, custody: nat)
    ensures ali.Done? && bob.Done? && joe == Aborted(Revert(User(1)))
    ensures custody == CONTRACT_LIMIT
  {
    var v := Initialised();
    ali := Call(v, ALI, 100 * MULTIPLIER, HashKey(CONTRACT));
    bob := Call(v, BOB, 100 * MULTIPLIER, HashKey(CONTRACT));
    joe := Call(v, JOE, 1, HashKey(CONTRACT));
    custody := Custody(v);
  }

  /** Deposit 42, withdraw 12: 30 tokens and 30 motes in custody remain, and
      the account got its 12 motes back. */
  method WithdrawPart() returns (r: Outcome, tokens: nat, custody: nat, purse: nat)
    ensures r.Done? && tokens == 30 && custody == 30 && purse == FUNDS - 30
  {
    var v := Initialised();
    var d := Call(v, ALI, 42, HashKey(CONTRACT));
    r := v.Withdraw(SessionStack(ALI), 12);
    tokens, custody, purse := v.BalanceOf(Account(ALI)), Custody(v), v.purses[10];
  }

  /** Asking for more than one holds is a silent no-op. */
  method WithdrawTooMuch() returns (r: Outcome, tokens: nat, custody: nat, purse: nat)
    ensures r.Done? && tokens == 42 && custody == 42 && purse == FUNDS - 42
  {
    var v := Initialised();
    var d := Call(v, ALI, 42, HashKey(CONTRACT));
    r := v.Withdraw(SessionStack(ALI), 43);
    tokens, custody, purse := v.BalanceOf(Account(ALI)), Custody(v), v.purses[10];
  }

  /** A second `init` changes nothing. */
  method InitTwice() returns (first: Outcome, second: Outcome, same: bool)
    ensures first.Done? && second.Done? && same
  {
    var v := Installed();
    first := v.Init();
    var once := v.Snap();
    second := v.Init();
    same := v.Snap() == once;
  }

  /** The limits live in the session program only: calling `deposit` directly
      with a purse of one's own mints its whole balance, past both caps. */
  method DirectDepositSkipsLimits() returns (r: Outcome, tokens: nat)
    ensures r.Done? && tokens == FUNDS && tokens > CONTRACT_LIMIT
  {
    var v := Initialised();
    r := v.Deposit(SessionStack(ALI), 10);
    tokens := v.BalanceOf(Account(ALI));
  }

  /** With `init` as written the `main_purse` named key holds a storage cell,
      not a purse: a deposit mints 100 tokens while custody stays empty and
      the 100 motes stay behind in the hand-off purse, and a withdrawal then
      reverts on the custody transfer. */
  method InitAsWrittenLeavesDepositsUnbacked()
    returns (deposit: Outcome, supply: nat, custodyIsPurse: bool, stranded: nat, withdraw: Outcome)
    ensures deposit.Done? && supply == 100 && !custodyIsPurse && stranded == 100
    ensures withdraw == Aborted(Revert(Transfer))
  {
    var v := Installed();
    var i := v.Init();
    deposit := Call(v, ALI, 100, HashKey(CONTRACT));
    supply := v.totalSupply;
    custodyIsPurse := GetMainPurse(v.namedKeys).Ok? && GetMainPurse(v.namedKeys).value in v.purses;
    // Init handed out URefs 100 (the purse), 101 and 102 (the two cells);
    // the hand-off purse is 103.
    stranded := if 103 in v.purses then v.purses[103] else 0;
    withdraw := v.Withdraw(SessionStack(ALI), 12);
  }

  /** Depositing a hand-off purse's balance `b` and then withdrawing `b`:
      the withdrawal goes through, the caller's tokens, the total supply and
      custody are back where they were, the peg holds, and the `b` motes have
      moved from the hand-off purse to the caller's main purse. */
  method DepositThenWithdraw(v: Vault, stack: seq<Frame>, tmp: URef) returns (d: Outcome, w: Outcome)
    requires v.Valid() && v.Pegged() && |stack| >= 2 && tmp in v.purses
    requires tmp != GetMainPurse(v.namedKeys).value
    requires FrameToAddress(stack[|stack| - 2]).Account?
    requires FrameToAddress(stack[|stack| - 2]).accountHash in v.accountPurses
    requires v.accountPurses[FrameToAddress(stack[|stack| - 2]).accountHash] != GetMainPurse(v.namedKeys).value
    modifies v
    ensures v.Valid()
    ensures d.Done? ==> w.Done?
    ensures d.Done? ==>
      var caller := FrameToAddress(stack[|stack| - 2]);
      var home := old(v.accountPurses)[caller.accountHash];
      && v.totalSupply == old(v.totalSupply)
      && v.BalanceOf(caller) == old(v.BalanceOf(caller))
      && Custody(v) == old(Custody(v))
      && v.Pegged()
      && tmp in v.purses && home in v.purses && home in old(v.purses)
      && (tmp != home ==> v.purses[tmp] == 0 && v.purses[home] == old(v.purses[home]) + old(v.purses[tmp]))
      && (tmp == home ==> v.purses[home] == old(v.purses[home]))
  {
    var b := v.purses[tmp];
    d := v.Deposit(stack, tmp);
    if d.Aborted? {
      return d, d;
    }
    w := v.Withdraw(stack, b);
  }
}
