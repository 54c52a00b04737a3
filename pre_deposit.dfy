/** The deposit session program: it runs with the depositor's authority,
    checks the limits, moves the requested amount from the depositor's main
    purse into a new hand-off purse and calls the vault's `deposit` with it. */
module PreDeposit {
  import opened Base
  import opened CallStack
  import opened Storage
  import opened Limits
  import opened Vault

  /** The purse balances after the session funds a new hand-off purse `tmp`
      from `sender` (a transfer that may fail) and `deposit` moves whatever
      reached `tmp` on to `main` (a transfer that fails when `main` is not a
      purse): the depositor loses `b`, custody gains `b`, and `b` is the
      requested amount exactly when the sender's purse could pay it. */
  lemma HandOff(p: map<URef, nat>, sender: URef, tmp: URef, main: URef, amount: nat)
    requires sender in p && tmp !in p && tmp != main
    ensures
      var b := if p[sender] >= amount then amount else 0;
      var created := p[tmp := 0];
      var funded := if p[sender] >= amount then Moved(created, sender, tmp, amount) else created;
      var settled := if main in funded then Moved(funded, tmp, main, b) else funded;
      && (main in p && main != sender ==> settled == p[sender := p[sender] - b][main := p[main] + b][tmp := 0])
      && (main == sender ==> settled == p[tmp := 0])
      && (main !in p ==> settled == p[sender := p[sender] - b][tmp := b])
  {
    var b := if p[sender] >= amount then amount else 0;
    var created := p[tmp := 0];
    var funded := if p[sender] >= amount then Moved(created, sender, tmp, amount) else created;
    assert funded == p[sender := p[sender] - b][tmp := b];
    if main in funded {
      var settled := Moved(funded, tmp, main, b);
      if main != sender {
        assert settled == p[sender := p[sender] - b][main := p[main] + b][tmp := 0];
      } else {
        assert settled == p[tmp := 0];
      }
    }
  }

  /** The session's `call`, run by `account` with the arguments `cspr_amount`
      and `wcspr_contract_hash_key`. The model's host holds one stored
      contract, the vault, so a hash naming any other contract finds none. */
  method Call(v: Vault, account: AccountHash, amount: nat, contractKey: Key) returns (r: Outcome)
    requires v.Valid() && account in v.accountPurses
    modifies v
    ensures v.Valid()
    ensures r.Aborted? ==> v.Snap() == old(v.Snap())
    ensures amount >= U128_LIMIT ==> r == Aborted(Panic)
    ensures amount < U128_LIMIT && !contractKey.HashKey? ==> r == Aborted(Revert(NoneValue))
    ensures amount < U128_LIMIT && contractKey.HashKey? && contractKey.hash != v.contractHash ==>
      r == Aborted(Revert(ContractNotFound))
    ensures amount < U128_LIMIT && contractKey == HashKey(v.contractHash) ==>
      var admission := AdmitDeposit(old(v.totalSupply), old(v.BalanceOf(Account(account))), amount);
      && (admission.Aborted? ==> r == admission)
      && (admission.Done? ==> (r.Done? <==> GetMainPurse(old(v.namedKeys)).Ok?))
    ensures r.Done? ==>
      var sender := old(v.accountPurses)[account];
      var tmp := old(v.nextUref);
      var b := if old(v.purses)[sender] >= amount then amount else 0;
      var main := GetMainPurse(old(v.namedKeys)).value;
      // What the depositor is credited with is what reached the hand-off purse.
      && tmp !in old(v.purses) && tmp != sender && tmp != main
      && v.balances == old(v.balances)[Account(account) := old(v.BalanceOf(Account(account))) + b]
      && v.totalSupply == old(v.totalSupply) + b
      && v.accountPurses == old(v.accountPurses) && v.namedKeys == old(v.namedKeys) && v.cells == old(v.cells)
      // Custody receives it when the `main_purse` key names a purse ...
      && (main in old(v.purses) && main != sender ==>
            v.purses == old(v.purses)[sender := old(v.purses)[sender] - b][main := old(v.purses)[main] + b][tmp := 0])
      && (main == sender ==> v.purses == old(v.purses)[tmp := 0])
      // ... and otherwise it stays in the hand-off purse.
      && (main !in old(v.purses) ==> v.purses == old(v.purses)[sender := old(v.purses)[sender] - b][tmp := b])
    ensures r.Done? && old(v.Pegged()) && old(v.accountPurses)[account] != GetMainPurse(old(v.namedKeys)).value ==>
      v.Pegged()
  {
    var converted := AsU128(amount);
    if converted.Err? {
      return Aborted(converted.abort);
    }
    if !contractKey.HashKey? {
      return Aborted(Revert(NoneValue));
    }
    if contractKey.hash != v.contractHash {
      return Aborted(Revert(ContractNotFound));
    }
    // The caller of a session is the account that runs it.
    var sender := Account(account);
    var admission := AdmitDeposit(v.totalSupply, v.BalanceOf(sender), amount);
    if admission.Aborted? {
      return admission;
    }
    var saved := v.Snap();
    var senderPurse := v.accountPurses[account];
    var tmp := v.CreatePurse();
    ghost var created := v.purses;
    var funded := v.TransferPurseToPurse(senderPurse, tmp, amount);
    ghost var b := if funded then amount else 0;
    assert v.purses == if funded then Moved(created, senderPurse, tmp, amount) else created;
    assert v.purses[tmp] == b;
    r := v.Deposit([Session(account), StoredContract(v.packageHash, v.contractHash)], tmp);
    if r.Aborted? {
      v.Restore(saved);
    } else {
      HandOff(saved.purses, senderPurse, tmp, GetMainPurse(saved.namedKeys).value, amount);
    }
  }
}
