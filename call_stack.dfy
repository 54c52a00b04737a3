/** Caller resolution: which address answers for the current invocation.
    The host hands the contract its call stack, outermost frame first and the
    currently executing frame last. */
module CallStack {
  import opened Base

  /** One frame of the host's call stack. */
  datatype Frame =
    | Session(accountHash: AccountHash)
    | StoredSession(accountHash: AccountHash, packageHash: PackageHash, contractHash: ContractHash)
    | StoredContract(packageHash: PackageHash, contractHash: ContractHash)

  /** An ERC-20 address: an account or a contract package. */
  datatype Address = Account(accountHash: AccountHash) | ContractPackage(packageHash: PackageHash)

  /** `Address::as_account_hash`. */
  function AsAccountHash(a: Address): (r: Option<AccountHash>)
    ensures r.Some? <==> a.Account?
    ensures r.Some? ==> r.value == a.accountHash
  {
    match a
    case Account(h) => Some(h)
    case ContractPackage(_) => None
  }

  /** `into_iter().rev()`: the elements from the last one to the first. */
  function Rev<T>(s: seq<T>): seq<T>
  {
    if s == [] then [] else Rev(s[1..]) + [s[0]]
  }

  /** `Iterator::nth`: the element at position `n`, if there is one. */
  function Nth<T>(s: seq<T>, n: nat): Option<T>
  {
    if s == [] then None else if n == 0 then Some(s[0]) else Nth(s[1..], n - 1)
  }

  lemma {:induction false} RevAt<T>(s: seq<T>, k: nat)
    requires k < |s|
    ensures |Rev(s)| == |s| && Rev(s)[k] == s[|s| - 1 - k]
  {
    if |s| == 1 {
    } else if k < |s| - 1 {
      RevAt(s[1..], k);
    } else {
      RevLength(s[1..]);
    }
  }

  lemma {:induction false} RevLength<T>(s: seq<T>)
    ensures |Rev(s)| == |s|
  {
    if s != [] {
      RevLength(s[1..]);
    }
  }

  lemma {:induction false} NthIndex<T>(s: seq<T>, n: nat)
    ensures Nth(s, n) == if n < |s| then Some(s[n]) else None
  {
    if s != [] && n != 0 {
      NthIndex(s[1..], n - 1);
    }
  }

  /** Position 1 of the reversed stack is the second-to-last frame. */
  lemma {:induction false} SecondFromTop<T>(s: seq<T>)
    ensures Nth(Rev(s), 1) == if |s| >= 2 then Some(s[|s| - 2]) else None
  {
    NthIndex(Rev(s), 1);
    RevLength(s);
    if |s| >= 2 {
      RevAt(s, 1);
    }
  }

  /** `get_immediate_call_stack_item`: the second frame counted from the
      innermost one, i.e. the frame directly beneath the running contract. */
  function ImmediateCallStackItem(stack: seq<Frame>): (r: Option<Frame>)
    ensures r.Some? <==> |stack| >= 2
    ensures r.Some? ==> r.value == stack[|stack| - 2]
  {
    SecondFromTop(stack);
    Nth(Rev(stack), 1)
  }

  /** `call_stack_element_to_address`: session code, stored or not, acts for
      its account; a stored contract acts as its own package. */
  function FrameToAddress(f: Frame): (a: Address)
    ensures a.Account? <==> !f.StoredContract?
    ensures a.Account? ==> a.accountHash == f.accountHash
    ensures a.ContractPackage? ==> a.packageHash == f.packageHash
  {
    match f
    case Session(h) => Account(h)
    case StoredSession(h, _, _) => Account(h)
    case StoredContract(p, _) => ContractPackage(p)
  }

  /** `get_immediate_caller_address`: the address of the immediate caller,
      or the ERC-20 `InvalidContext` error when the stack has no such frame. */
  function ImmediateCallerAddress(stack: seq<Frame>): (r: Result<Address>)
    ensures r.Ok? <==> |stack| >= 2
    ensures r.Ok? ==> r.value == FrameToAddress(stack[|stack| - 2])
    ensures r.Err? ==> r.abort == Revert(Erc20(InvalidContext))
  {
    match ImmediateCallStackItem(stack)
    case Some(f) => Ok(FrameToAddress(f))
    case None => Err(Revert(Erc20(InvalidContext)))
  }

  /** A session that calls a stored contract is that contract's immediate
      caller, so the account of the session is the address it resolves to. */
  lemma SessionCallingContract(a: AccountHash, p: PackageHash, c: ContractHash)
    ensures ImmediateCallerAddress([Session(a), StoredContract(p, c)]) == Ok(Account(a))
  {
  }

  /** A contract that calls through another contract is attributed to itself,
      not to the session further out. */
  lemma ContractCallingContract(a: AccountHash, p1: PackageHash, c1: ContractHash, p2: PackageHash, c2: ContractHash)
    ensures ImmediateCallerAddress([Session(a), StoredContract(p1, c1), StoredContract(p2, c2)]) == Ok(ContractPackage(p1))
  {
  }
}
