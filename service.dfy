/**
 * The `BlockchainService` object and the module-level singleton behind
 * `getInstance`. The provider, signer and contract handles built from
 * `ethers` are not modelled: the object keeps only whether a wallet provider
 * was injected and its contract factory table.
 */
module Service {
  import opened Wrappers
  import opened Events
  import opened Contracts
  import opened Operations

  class BlockchainService {
    /** The `CONTRACT_NAMES` values the service was built against. */
    const names: NameTable
    /** `this.provider` is set only when `window.ethereum` is present. */
    const hasProvider: bool
    /** `this.contracts`, keyed by contract name. */
    const contracts: map<string, ContractName>

    constructor (names: NameTable, ethereumInjected: bool)
      ensures this.names == names && hasProvider == ethereumInjected
      ensures contracts == Registry(names)
    {
      this.names := names;
      hasProvider := ethereumInjected;
      contracts := Registry(names);
    }

    /** One of the six domain operations: resolve the contract (which fails
        when no wallet provider was injected), invoke its method through
        `send`, and extract the operation's event from the mined receipt with
        `processTx`. */
    method Perform(op: OpCall, send: ContractCall -> SentTx) returns (r: Result<Option<Record>, ServiceError>)
      ensures r == Outcome(contracts, hasProvider, names, op, send)
    {
      var contract := GetContractInstance(contracts, hasProvider, Some(KeyOf(names, Target(op))));
      if contract.Failure? {
        return Failure(ContractLookup(contract.error));
      }
      var tx := send(Invocation(contract.value, op));
      var found := ProcessTx(tx, ExpectedEvent(op), EventFields(op));
      if found.Failure? {
        return Failure(Extraction(found.error));
      }
      return Success(found.value);
    }
  }

  /** The module's `let instance;`: unset when the module is loaded. */
  class ModuleScope {
    var instance: BlockchainService?

    constructor ()
      ensures instance == null
    {
      instance := null;
    }

    /** `BlockchainService.getInstance()`: constructs the service on the first
        call only; every call returns the stored object, which never changes
        once set. The environment arguments matter only on the first call. */
    method GetInstance(names: NameTable, ethereumInjected: bool) returns (s: BlockchainService)
      modifies this
      ensures instance == s
      ensures old(instance) != null ==> s == old(instance)
      ensures old(instance) == null ==> fresh(s) && s.names == names && s.hasProvider == ethereumInjected
      ensures old(instance) == null ==> s.contracts == Registry(names)
    {
      if instance == null {
        instance := new BlockchainService(names, ethereumInjected);
      }
      return instance;
    }
  }

  /** Loading the module: the default export is `getInstance()`'s result, so
      the scope holds the exported object from then on. */
  method LoadModule(names: NameTable, ethereumInjected: bool) returns (scope: ModuleScope, exported: BlockchainService)
    ensures fresh(scope) && fresh(exported)
    ensures scope.instance == exported
    ensures exported.contracts == Registry(names) && exported.hasProvider == ethereumInjected
  {
    scope := new ModuleScope();
    exported := scope.GetInstance(names, ethereumInjected);
  }

  /** Idempotence: two calls in a row return the same object, whatever
      environments they are given. */
  method GetInstanceTwice(scope: ModuleScope, names1: NameTable, injected1: bool, names2: NameTable, injected2: bool)
    returns (first: BlockchainService, second: BlockchainService)
    modifies scope
    ensures first == second && scope.instance == first
    ensures old(scope.instance) != null ==> first == old(scope.instance)
  {
    first := scope.GetInstance(names1, injected1);
    second := scope.GetInstance(names2, injected2);
  }
}
