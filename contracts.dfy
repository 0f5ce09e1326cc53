/**
 * The contract factory table and the `getContractInstance` guard.
 * The string each contract is registered under comes from `CONTRACT_NAMES`
 * in ContractNames.js, which is not part of this model: it is a parameter here.
 */
module Contracts {
  import opened Wrappers

  /** The closed set of contracts the factory table can build. */
  datatype ContractName = Cashier | Token | VoucherKernel

  /** The values of `CONTRACT_NAMES.CASHIER_CONTRACT`, `.TOKEN_CONTRACT` and
      `.VOUCHER_KERNEL_CONTRACT`. */
  datatype NameTable = NameTable(cashier: string, token: string, voucherKernel: string)

  /** What `getContractInstance` throws: the explicit guard's error; the
      TypeError of calling `this.contracts[name]` when it is undefined; or the
      TypeError the factory raises through `this.getSigner()` when no wallet
      provider was injected, so that `this.provider` is undefined. */
  datatype ContractError = NoContractName | UnknownContract(name: string) | NoProvider

  /** The key `CONTRACT_NAMES` gives a contract; every one of them is a key
      of the factory table. */
  function KeyOf(t: NameTable, c: ContractName): (key: string)
    ensures key in Registry(t)
    ensures WellFormed(t) ==> key != "" && Registry(t)[key] == c
  {
    match c
    case Cashier => t.cashier
    case Token => t.token
    case VoucherKernel => t.voucherKernel
  }

  /** Names that can all be looked up: non-empty and pairwise distinct. */
  predicate WellFormed(t: NameTable)
  {
    && t.cashier != "" && t.token != "" && t.voucherKernel != ""
    && t.cashier != t.token && t.cashier != t.voucherKernel && t.token != t.voucherKernel
  }

  /** `this.contracts`, the object literal with computed keys built in the
      constructor: when two names coincide the later entry replaces the earlier. */
  function Registry(t: NameTable): (m: map<string, ContractName>)
    ensures m.Keys == {t.cashier, t.token, t.voucherKernel}
    ensures m[t.voucherKernel] == VoucherKernel
    ensures t.token != t.voucherKernel ==> m[t.token] == Token
    ensures t.cashier != t.token && t.cashier != t.voucherKernel ==> m[t.cashier] == Cashier
  {
    map[t.cashier := Cashier][t.token := Token][t.voucherKernel := VoucherKernel]
  }

  /** `getContractInstance(contractName)` on a service whose `this.provider`
      is set iff `hasProvider`: a missing (`None`) or empty name is refused
      before the table is consulted; a name the table lacks fails when its
      undefined entry is called; a registered factory fails when it asks for
      the signer of an undefined provider. */
  function GetContractInstance(contracts: map<string, ContractName>, hasProvider: bool, name: Option<string>)
    : (r: Result<ContractName, ContractError>)
    ensures r == Failure(NoContractName) <==> name.None? || name.value == ""
    ensures r.Success? <==> hasProvider && name.Some? && name.value != "" && name.value in contracts
    ensures r.Success? ==> r.value == contracts[name.value]
    ensures r.Failure? && name.Some? && name.value != "" ==>
            r.error == if name.value in contracts then NoProvider else UnknownContract(name.value)
  {
    if name.None? || name.value == "" then Failure(NoContractName)
    else if name.value !in contracts then Failure(UnknownContract(name.value))
    else if !hasProvider then Failure(NoProvider)
    else Success(contracts[name.value])
  }

  /** With well-formed names and a wallet provider, looking up a name succeeds
      exactly for the three registered names, and each one yields its own
      contract. */
  lemma LookupResolves(t: NameTable, name: Option<string>, c: ContractName)
    requires WellFormed(t)
    ensures GetContractInstance(Registry(t), true, name) == Success(c) <==> name == Some(KeyOf(t, c))
  {
  }
}
