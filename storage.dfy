/** The contract's named keys and the storage cells they can point to.
    A named key maps a name to a `Key`; a `UrefKey` names a storage cell (or a
    purse) by its URef; a cell holds one typed value. */
module Storage {
  import opened Base

  datatype Key = UrefKey(uref: URef) | HashKey(hash: ContractHash) | AccountKey(account: AccountHash)

  /** The values this contract stores: the `initialized` flag and a purse handle. */
  datatype Value = BoolValue(b: bool) | UrefValue(u: URef)

  /** The type a read asks for (the `T` of `get_key::<T>`). */
  datatype CLType = BoolType | UrefType

  function TypeOf(v: Value): CLType
  {
    match v
    case BoolValue(_) => BoolType
    case UrefValue(_) => UrefType
  }

  const MAIN_PURSE: string := "main_purse"
  const INITIALIZED: string := "initialized"

  /** `get_key::<T>(name)`: `None` when there is no such named key; otherwise
      the key must be a URef (`try_into`, reverting with `UnexpectedKeyVariant`),
      its cell must exist (`NoneValue`) and hold a value of type `ty`
      (`Deserialize`), or the call reverts. */
  function GetKey(namedKeys: map<string, Key>, cells: map<URef, Value>, name: string, ty: CLType): (r: Result<Option<Value>>)
    ensures name !in namedKeys <==> r == Ok(None)
    ensures r.Ok? && r.value.Some? <==>
      name in namedKeys && namedKeys[name].UrefKey? && namedKeys[name].uref in cells
      && TypeOf(cells[namedKeys[name].uref]) == ty
    ensures r.Ok? && r.value.Some? ==> r.value.value == cells[namedKeys[name].uref]
    ensures name in namedKeys && !namedKeys[name].UrefKey? ==> r == Err(Revert(UnexpectedKeyVariant))
  {
    if name !in namedKeys then Ok(None)
    else match namedKeys[name]
      case UrefKey(u) =>
        if u !in cells then Err(Revert(NoneValue))
        else if TypeOf(cells[u]) != ty then Err(Revert(Deserialize))
        else Ok(Some(cells[u]))
      case _ => Err(Revert(UnexpectedKeyVariant))
  }

  /** `get_main_purse` (and the same two lines inlined in deposit and
      withdraw): the URef the `main_purse` named key itself holds; reverts with
      `NoneValue` when the key is missing or is not a URef. */
  function GetMainPurse(namedKeys: map<string, Key>): (r: Result<URef>)
    ensures r.Ok? <==> MAIN_PURSE in namedKeys && namedKeys[MAIN_PURSE].UrefKey?
    ensures r.Ok? ==> r.value == namedKeys[MAIN_PURSE].uref
    ensures r.Err? ==> r.abort == Revert(NoneValue)
  {
    if MAIN_PURSE in namedKeys && namedKeys[MAIN_PURSE].UrefKey? then Ok(namedKeys[MAIN_PURSE].uref)
    else Err(Revert(NoneValue))
  }
}
