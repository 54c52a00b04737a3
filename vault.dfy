/** The vault contract and the host state it works on: the host's purses and
    account purses, the ERC-20 ledger that holds the pegged tokens, and the
    contract's named keys with their storage cells. */
module Vault {
  import opened Base
  import opened CallStack
  import opened Storage

  /** Every part of the state an entry point can change. The host commits an
      invocation's effects only when it returns: an aborted invocation leaves
      the state as it found it. */
  datatype Snapshot = Snapshot(
    purses: map<URef, nat>,
    accountPurses: map<AccountHash, URef>,
    balances: map<Address, nat>,
    totalSupply: nat,
    namedKeys: map<string, Key>,
    cells: map<URef, Value>,
    nextUref: URef)

  /** The host hands out URefs that have never been used, and every account's
      main purse exists. */
  ghost predicate Consistent(s: Snapshot)
  {
    && (forall u :: u in s.purses ==> u < s.nextUref)
    && (forall u :: u in s.cells ==> u < s.nextUref)
    && (forall a :: a in s.accountPurses ==> s.accountPurses[a] in s.purses)
    && (forall n :: n in s.namedKeys && s.namedKeys[n].UrefKey? ==> s.namedKeys[n].uref < s.nextUref)
  }

  /** The purse balances after moving `amount` from `src` to `dst`. */
  function Moved(p: map<URef, nat>, src: URef, dst: URef, amount: nat): (q: map<URef, nat>)
    requires src in p && dst in p && p[src] >= amount
    ensures q.Keys == p.Keys
    ensures src != dst ==> q[src] == p[src] - amount && q[dst] == p[dst] + amount
    ensures src == dst ==> q == p
    ensures forall u :: u in p && u != src && u != dst ==> q[u] == p[u]
  {
    var drawn := p[src := p[src] - amount];
    drawn[dst := drawn[dst] + amount]
  }

  class Vault {
    /** The vault's own package and contract hashes. */
    const packageHash: PackageHash
    const contractHash: ContractHash
    /** The balance of every purse. */
    var purses: map<URef, nat>
    /** The main purse of every account. */
    var accountPurses: map<AccountHash, URef>
    /** The pegged-token ledger. */
    var balances: map<Address, nat>
    var totalSupply: nat
    /** The vault's named keys and the storage cells. */
    var namedKeys: map<string, Key>
    var cells: map<URef, Value>
    /** The next URef the host hands out. */
    var nextUref: URef

    function Snap(): Snapshot
      reads this
    {
      Snapshot(purses, accountPurses, balances, totalSupply, namedKeys, cells, nextUref)
    }

    ghost predicate Valid()
      reads this
    {
      Consistent(Snap())
    }

    /** `balance_of`: an address the ledger has never seen holds nothing. */
    function BalanceOf(a: Address): nat
      reads this
    {
      if a in balances then balances[a] else 0
    }

    /** The peg: the handle under `main_purse` names a purse, and that purse
        holds exactly the total supply of pegged tokens. */
    ghost predicate Pegged()
      reads this
    {
      && GetMainPurse(namedKeys).Ok?
      && GetMainPurse(namedKeys).value in purses
      && purses[GetMainPurse(namedKeys).value] == totalSupply
    }

    /** A freshly installed vault: the given accounts and purses, no tokens, no
        named keys yet. */
    constructor (packageHash: PackageHash, contractHash: ContractHash,
                 purses: map<URef, nat>, accountPurses: map<AccountHash, URef>, nextUref: URef)
      requires Consistent(Snapshot(purses, accountPurses, map[], 0, map[], map[], nextUref))
      ensures Valid()
      ensures this.packageHash == packageHash && this.contractHash == contractHash
      ensures Snap() == Snapshot(purses, accountPurses, map[], 0, map[], map[], nextUref)
    {
      this.packageHash := packageHash;
      this.contractHash := contractHash;
      this.purses := purses;
      this.accountPurses := accountPurses;
      this.balances := map[];
      this.totalSupply := 0;
      this.namedKeys := map[];
      this.cells := map[];
      this.nextUref := nextUref;
    }

    /** The host's rollback of an aborted invocation. */
    method Restore(s: Snapshot)
      modifies this
      ensures Snap() == s
    {
      purses, accountPurses, balances, totalSupply := s.purses, s.accountPurses, s.balances, s.totalSupply;
      namedKeys, cells, nextUref := s.namedKeys, s.cells, s.nextUref;
    }

    // Host primitives

    /** `system::create_purse`: a new, empty purse. */
    method CreatePurse() returns (p: URef)
      requires Valid()
      modifies this
      ensures Valid()
      ensures p == old(nextUref) && p !in old(purses) && p !in old(cells)
      ensures Snap() == old(Snap()).(purses := old(purses)[p := 0], nextUref := p + 1)
    {
      p := nextUref;
      nextUref := nextUref + 1;
      purses := purses[p := 0];
    }

    /** `storage::new_uref`: a new storage cell holding `v`. */
    method NewUref(v: Value) returns (u: URef)
      requires Valid()
      modifies this
      ensures Valid()
      ensures u == old(nextUref) && u !in old(purses) && u !in old(cells)
      ensures Snap() == old(Snap()).(cells := old(cells)[u := v], nextUref := u + 1)
    {
      u := nextUref;
      nextUref := nextUref + 1;
      cells := cells[u := v];
    }

    /** `system::transfer_from_purse_to_purse`: fails, changing nothing, unless
        both purses exist and `src` holds at least `amount`. */
    method TransferPurseToPurse(src: URef, dst: URef, amount: nat) returns (ok: bool)
      requires Valid()
      modifies this
      ensures Valid()
      ensures ok <==> src in old(purses) && dst in old(purses) && old(purses)[src] >= amount
      ensures ok ==> Snap() == old(Snap()).(purses := Moved(old(purses), src, dst, amount))
      ensures !ok ==> Snap() == old(Snap())
    {
      ok := src in purses && dst in purses && purses[src] >= amount;
      if ok {
        purses := Moved(purses, src, dst, amount);
      }
    }

    /** `system::transfer_from_purse_to_account`: pays into the account's main
        purse; an account the host does not know yet is created with a new
        main purse. Fails, changing nothing, unless `src` exists and holds at
        least `amount`. */
    method TransferPurseToAccount(src: URef, account: AccountHash, amount: nat) returns (ok: bool)
      requires Valid()
      modifies this
      ensures Valid()
      ensures ok <==> src in old(purses) && old(purses)[src] >= amount
      ensures ok && account in old(accountPurses) ==>
        Snap() == old(Snap()).(purses := Moved(old(purses), src, old(accountPurses)[account], amount))
      ensures ok && account !in old(accountPurses) ==>
        && old(nextUref) !in old(purses)
        && Snap() == old(Snap()).(
             purses := old(purses)[src := old(purses)[src] - amount][old(nextUref) := amount],
             accountPurses := old(accountPurses)[account := old(nextUref)],
             nextUref := old(nextUref) + 1)
      ensures !ok ==> Snap() == old(Snap())
    {
      ok := src in purses && purses[src] >= amount;
      if !ok {
        return;
      }
      if account in accountPurses {
        purses := Moved(purses, src, accountPurses[account], amount);
      } else {
        var p := nextUref;
        nextUref := nextUref + 1;
        purses := purses[src := purses[src] - amount][p := amount];
        accountPurses := accountPurses[account := p];
      }
    }

    // The pegged-token ledger

    /** ERC-20 `mint`: checked U256 additions to the owner's balance and to the
        total supply. */
    method Mint(owner: Address, amount: nat) returns (r: Outcome)
      modifies this
      ensures r.Done? <==> old(BalanceOf(owner)) + amount < U256_LIMIT && old(totalSupply) + amount < U256_LIMIT
      ensures r.Done? ==>
        Snap() == old(Snap()).(balances := old(balances)[owner := old(BalanceOf(owner)) + amount],
                               totalSupply := old(totalSupply) + amount)
      ensures r.Aborted? ==> r.abort == Revert(Erc20(Overflow)) && Snap() == old(Snap())
    {
      var balance := BalanceOf(owner);
      if balance + amount >= U256_LIMIT || totalSupply + amount >= U256_LIMIT {
        return Aborted(Revert(Erc20(Overflow)));
      }
      balances := balances[owner := balance + amount];
      totalSupply := totalSupply + amount;
      r := Done;
    }

    /** ERC-20 `burn`: checked subtractions from the owner's balance and from
        the total supply. */
    method Burn(owner: Address, amount: nat) returns (r: Outcome)
      modifies this
      ensures r.Done? <==> amount <= old(BalanceOf(owner)) && amount <= old(totalSupply)
      ensures amount > old(BalanceOf(owner)) ==> r == Aborted(Revert(Erc20(InsufficientBalance)))
      ensures amount <= old(BalanceOf(owner)) && amount > old(totalSupply) ==> r == Aborted(Revert(Erc20(Overflow)))
      ensures r.Done? ==>
        Snap() == old(Snap()).(balances := old(balances)[owner := old(BalanceOf(owner)) - amount],
                               totalSupply := old(totalSupply) - amount)
      ensures r.Aborted? ==> Snap() == old(Snap())
    {
      var balance := BalanceOf(owner);
      if balance < amount {
        return Aborted(Revert(Erc20(InsufficientBalance)));
      }
      if totalSupply < amount {
        return Aborted(Revert(Erc20(Overflow)));
      }
      balances := balances[owner := balance - amount];
      totalSupply := totalSupply - amount;
      r := Done;
    }

    // Named-key store

    /** `set_key(name, v)`: overwrites the cell an existing named key points
        to, or stores `v` in a new cell and registers it under `name`. */
    method SetKey(name: string, v: Value) returns (r: Outcome)
      requires Valid()
      modifies this
      ensures Valid()
      ensures r.Done? <==> name !in old(namedKeys) || old(namedKeys)[name].UrefKey?
      ensures r.Done? ==> GetKey(namedKeys, cells, name, TypeOf(v)) == Ok(Some(v))
      ensures r.Done? && name in old(namedKeys) ==>
        Snap() == old(Snap()).(cells := old(cells)[old(namedKeys)[name].uref := v])
      ensures name !in old(namedKeys) ==>
        && old(nextUref) !in old(cells) && old(nextUref) !in old(purses)
        && Snap() == old(Snap()).(cells := old(cells)[old(nextUref) := v],
                                  namedKeys := old(namedKeys)[name := UrefKey(old(nextUref))],
                                  nextUref := old(nextUref) + 1)
      ensures r.Aborted? ==> r.abort == Revert(UnexpectedKeyVariant) && Snap() == old(Snap())
    {
      if name in namedKeys {
        match namedKeys[name]
        case UrefKey(u) =>
          cells := cells[u := v];
          r := Done;
        case _ =>
          r := Aborted(Revert(UnexpectedKeyVariant));
      } else {
        var u := NewUref(v);
        namedKeys := namedKeys[name := UrefKey(u)];
        r := Done;
      }
    }

    /** `set_main_purse(p)`: the `main_purse` named key becomes the purse's
        own URef. */
    method SetMainPurse(p: URef)
      requires Valid() && p < nextUref
      modifies this
      ensures Valid()
      ensures GetMainPurse(namedKeys) == Ok(p)
      ensures Snap() == old(Snap()).(namedKeys := old(namedKeys)[MAIN_PURSE := UrefKey(p)])
    {
      namedKeys := namedKeys[MAIN_PURSE := UrefKey(p)];
    }

    // Entry points

    /** `init`: unless `initialized` is already there, creates a purse, stores
        its handle with `set_key("main_purse", …)` and sets `initialized`. */
    method Init() returns (r: Outcome)
      requires Valid()
      modifies this
      ensures Valid()
      ensures r.Aborted? ==> Snap() == old(Snap())
      ensures old(GetKey(namedKeys, cells, INITIALIZED, BoolType)).Err? ==>
        r == Aborted(old(GetKey(namedKeys, cells, INITIALIZED, BoolType)).abort)
      ensures old(GetKey(namedKeys, cells, INITIALIZED, BoolType)).Ok?
              && old(GetKey(namedKeys, cells, INITIALIZED, BoolType)).value.Some? ==>
        r.Done? && Snap() == old(Snap())
      ensures old(GetKey(namedKeys, cells, INITIALIZED, BoolType)) == Ok(None) ==>
        (r.Done? <==> MAIN_PURSE !in old(namedKeys) || old(namedKeys)[MAIN_PURSE].UrefKey?)
      ensures old(GetKey(namedKeys, cells, INITIALIZED, BoolType)) == Ok(None) && r.Done? ==>
        var p := old(nextUref);
        && p !in old(purses)
        && purses == old(purses)[p := 0]
        && GetKey(namedKeys, cells, MAIN_PURSE, UrefType) == Ok(Some(UrefValue(p)))
        && balances == old(balances) && totalSupply == old(totalSupply) && accountPurses == old(accountPurses)
        && (MAIN_PURSE !in old(namedKeys) ==>
              && namedKeys == old(namedKeys)[MAIN_PURSE := UrefKey(p + 1)][INITIALIZED := UrefKey(p + 2)]
              && cells == old(cells)[p + 1 := UrefValue(p)][p + 2 := BoolValue(true)]
              && nextUref == p + 3)
        && (MAIN_PURSE in old(namedKeys) ==>
              && namedKeys == old(namedKeys)[INITIALIZED := UrefKey(p + 1)]
              && cells == old(cells)[old(namedKeys)[MAIN_PURSE].uref := UrefValue(p)][p + 1 := BoolValue(true)]
              && nextUref == p + 2)
      ensures r.Done? ==> GetKey(namedKeys, cells, INITIALIZED, BoolType).Ok?
                          && GetKey(namedKeys, cells, INITIALIZED, BoolType).value.Some?
      ensures old(GetKey(namedKeys, cells, INITIALIZED, BoolType)) == Ok(None) && MAIN_PURSE !in old(namedKeys) ==>
        r.Done? && GetMainPurse(namedKeys).Ok? && GetMainPurse(namedKeys).value !in purses
    {
      var initialized := GetKey(namedKeys, cells, INITIALIZED, BoolType);
      match initialized
      case Err(a) =>
        r := Aborted(a);
      case Ok(Some(_)) =>
        r := Done;
      case Ok(None) =>
        var saved := Snap();
        var p := CreatePurse();
        r := SetKey(MAIN_PURSE, UrefValue(p));
        if r.Aborted? {
          Restore(saved);
          return;
        }
        r := SetKey(INITIALIZED, BoolValue(true));
    }

    /** `init` with the main purse registered by `set_main_purse`, so that the
        `main_purse` named key is the purse itself, as deposit and withdraw
        read it. */
    method InitWithMainPurse() returns (r: Outcome)
      requires Valid()
      modifies this
      ensures Valid()
      ensures r.Aborted? ==> Snap() == old(Snap())
      ensures old(GetKey(namedKeys, cells, INITIALIZED, BoolType)).Err? ==>
        r == Aborted(old(GetKey(namedKeys, cells, INITIALIZED, BoolType)).abort)
      ensures old(GetKey(namedKeys, cells, INITIALIZED, BoolType)).Ok?
              && old(GetKey(namedKeys, cells, INITIALIZED, BoolType)).value.Some? ==>
        r.Done? && Snap() == old(Snap())
      ensures old(GetKey(namedKeys, cells, INITIALIZED, BoolType)) == Ok(None) ==>
        var p := old(nextUref);
        && r.Done?
        && p !in old(purses)
        && purses == old(purses)[p := 0]
        && GetMainPurse(namedKeys) == Ok(p)
        && GetKey(namedKeys, cells, INITIALIZED, BoolType) == Ok(Some(BoolValue(true)))
        && namedKeys == old(namedKeys)[MAIN_PURSE := UrefKey(p)][INITIALIZED := UrefKey(p + 1)]
        && cells == old(cells)[p + 1 := BoolValue(true)]
        && nextUref == p + 2
        && balances == old(balances) && totalSupply == old(totalSupply) && accountPurses == old(accountPurses)
      ensures old(GetKey(namedKeys, cells, INITIALIZED, BoolType)) == Ok(None) && old(totalSupply) == 0 ==> Pegged()
    {
      var initialized := GetKey(namedKeys, cells, INITIALIZED, BoolType);
      match initialized
      case Err(a) =>
        r := Aborted(a);
      case Ok(Some(_)) =>
        r := Done;
      case Ok(None) =>
        var p := CreatePurse();
        SetMainPurse(p);
        r := SetKey(INITIALIZED, BoolValue(true));
    }

    /** `deposit(tmp_purse)`: moves the whole balance of the hand-off purse
        into the purse the `main_purse` named key holds, ignoring whether that
        transfer succeeds, and mints the same amount to the immediate caller. */
    method Deposit(stack: seq<Frame>, tmp: URef) returns (r: Outcome)
      requires Valid()
      modifies this
      ensures Valid()
      ensures r.Aborted? ==> Snap() == old(Snap())
      ensures tmp !in old(purses) ==> r == Aborted(Revert(NoneValue))
      ensures tmp in old(purses) && old(purses)[tmp] >= U128_LIMIT ==> r == Aborted(Panic)
      ensures tmp in old(purses) && old(purses)[tmp] < U128_LIMIT && GetMainPurse(old(namedKeys)).Ok? && |stack| < 2 ==>
        r == Aborted(Revert(Erc20(InvalidContext)))
      ensures r.Done? <==>
        && tmp in old(purses) && old(purses)[tmp] < U128_LIMIT
        && GetMainPurse(old(namedKeys)).Ok?
        && |stack| >= 2
        && old(BalanceOf(FrameToAddress(stack[|stack| - 2]))) + old(purses)[tmp] < U256_LIMIT
        && old(totalSupply) + old(purses)[tmp] < U256_LIMIT
      ensures r.Done? ==>
        var b := old(purses)[tmp];
        var main := GetMainPurse(old(namedKeys)).value;
        var caller := FrameToAddress(stack[|stack| - 2]);
        && purses == (if main in old(purses) then Moved(old(purses), tmp, main, b) else old(purses))
        && balances == old(balances)[caller := old(BalanceOf(caller)) + b]
        && totalSupply == old(totalSupply) + b
        && accountPurses == old(accountPurses) && namedKeys == old(namedKeys)
        && cells == old(cells) && nextUref == old(nextUref)
      ensures r.Done? && old(Pegged()) && tmp != GetMainPurse(old(namedKeys)).value ==> Pegged()
    {
      if tmp !in purses {
        return Aborted(Revert(NoneValue));
      }
      var amount := purses[tmp];
      var converted := AsU128(amount);
      if converted.Err? {
        return Aborted(converted.abort);
      }
      var main := GetMainPurse(namedKeys);
      if main.Err? {
        return Aborted(main.abort);
      }
      var saved := Snap();
      var _ := TransferPurseToPurse(tmp, main.value, amount);
      var sender := ImmediateCallerAddress(stack);
      if sender.Err? {
        Restore(saved);
        return Aborted(sender.abort);
      }
      r := Mint(sender.value, amount);
      if r.Aborted? {
        Restore(saved);
      }
    }

    /** `withdraw(cspr_amount)`: when the immediate caller holds at least
        `amount` tokens, pays `amount` from the purse the `main_purse` named key
        holds to the caller's account and burns the tokens; otherwise returns
        without doing anything. */
    method Withdraw(stack: seq<Frame>, amount: nat) returns (r: Outcome)
      requires Valid()
      modifies this
      ensures Valid()
      ensures r.Aborted? ==> Snap() == old(Snap())
      ensures amount >= U128_LIMIT ==> r == Aborted(Panic)
      ensures amount < U128_LIMIT && |stack| < 2 ==> r == Aborted(Revert(Erc20(InvalidContext)))
      ensures amount < U128_LIMIT && |stack| >= 2 && GetMainPurse(old(namedKeys)).Err? ==> r == Aborted(Revert(NoneValue))
      ensures amount < U128_LIMIT && |stack| >= 2 && GetMainPurse(old(namedKeys)).Ok? ==>
        var caller := FrameToAddress(stack[|stack| - 2]);
        var main := GetMainPurse(old(namedKeys)).value;
        // Too small a balance: a silent no-op.
        && (old(BalanceOf(caller)) < amount ==> r.Done? && Snap() == old(Snap()))
        // A contract package cannot be paid.
        && (old(BalanceOf(caller)) >= amount && caller.ContractPackage? ==> r == Aborted(Revert(NoneValue)))
        // The custody transfer must succeed.
        && ((old(BalanceOf(caller)) >= amount && caller.Account?
             && !(main in old(purses) && old(purses)[main] >= amount)) ==> r == Aborted(Revert(Transfer)))
        && (old(BalanceOf(caller)) >= amount && caller.Account? && main in old(purses) && old(purses)[main] >= amount ==>
            (r.Done? <==> amount <= old(totalSupply)))
      ensures r.Done? && |stack| >= 2 && old(BalanceOf(FrameToAddress(stack[|stack| - 2]))) >= amount ==>
        var caller := FrameToAddress(stack[|stack| - 2]);
        var main := GetMainPurse(old(namedKeys)).value;
        && caller.Account? && main in old(purses)
        && balances == old(balances)[caller := old(BalanceOf(caller)) - amount]
        && totalSupply == old(totalSupply) - amount
        && namedKeys == old(namedKeys) && cells == old(cells)
        && (caller.accountHash in old(accountPurses) ==>
              && purses == Moved(old(purses), main, old(accountPurses)[caller.accountHash], amount)
              && accountPurses == old(accountPurses) && nextUref == old(nextUref))
        && (caller.accountHash !in old(accountPurses) ==>
              && old(nextUref) !in old(purses)
              && purses == old(purses)[main := old(purses)[main] - amount][old(nextUref) := amount]
              && accountPurses == old(accountPurses)[caller.accountHash := old(nextUref)]
              && nextUref == old(nextUref) + 1)
      ensures r.Done? && old(Pegged()) && |stack| >= 2
              && (var caller := FrameToAddress(stack[|stack| - 2]);
                  caller.Account? && caller.accountHash in old(accountPurses) ==>
                  old(accountPurses)[caller.accountHash] != GetMainPurse(old(namedKeys)).value) ==>
        Pegged()
    {
      var converted := AsU128(amount);
      if converted.Err? {
        return Aborted(converted.abort);
      }
      var sender := ImmediateCallerAddress(stack);
      if sender.Err? {
        return Aborted(sender.abort);
      }
      var balance := BalanceOf(sender.value);
      var main := GetMainPurse(namedKeys);
      if main.Err? {
        return Aborted(main.abort);
      }
      if balance >= amount {
        var account := AsAccountHash(sender.value);
        if account.None? {
          return Aborted(Revert(NoneValue));
        }
        var saved := Snap();
        var ok := TransferPurseToAccount(main.value, account.value, amount);
        if !ok {
          return Aborted(Revert(Transfer));
        }
        r := Burn(sender.value, amount);
        if r.Aborted? {
          Restore(saved);
          return;
        }
      }
      r := Done;
    }
  }
}
