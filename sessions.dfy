/**
 * What both providers say to WalletConnect: the namespaces offered when a dApp proposes a
 * session, the calls made on the WalletKit connection, and which signer answers a request.
 */
module Sessions {
  import opened Wrappers
  import opened Rpc
  import Eip155Data
  import Hip820Wallet
  import Eip155Wallet

  // ---------------------------------------------------------------- namespaces

  /** One CAIP-25 namespace: chains, methods, events and `chain:address` accounts. */
  datatype Namespace = Namespace(chains: seq<string>, methods: seq<string>, events: seq<string>, accounts: seq<string>)

  /** The `supportedNamespaces` handed to `buildApprovedNamespaces`. */
  datatype SupportedNamespaces = SupportedNamespaces(eip155: Namespace, hedera: Namespace)

  /** The events both namespaces offer. */
  const EVENTS: seq<string> := ["accountsChanged", "chainChanged"]

  /** `HederaChainId.Testnet` / `HederaChainId.Mainnet`. */
  function HederaChainId(n: Network): (chain: string)
  {
    "hedera:" + NetworkName(n)
  }

  /** `Object.values(HederaJsonRpcMethod)`, in declaration order. */
  const HEDERA_METHODS: seq<string> := [
    Hip820Wallet.HederaMethodName(Hip820Wallet.GetNodeAddresses),
    Hip820Wallet.HederaMethodName(Hip820Wallet.ExecuteTransaction),
    Hip820Wallet.HederaMethodName(Hip820Wallet.SignMessage),
    Hip820Wallet.HederaMethodName(Hip820Wallet.SignAndExecuteQuery),
    Hip820Wallet.HederaMethodName(Hip820Wallet.SignAndExecuteTransaction),
    Hip820Wallet.HederaMethodName(Hip820Wallet.SignTransaction)]

  /** `chains.map((chain) => `${chain}:${address}`)`. */
  function Accounts(chains: seq<string>, address: string): (accounts: seq<string>)
  {
    seq(|chains|, i requires 0 <= i < |chains| => chains[i] + ":" + address)
  }

  /** `HederaChainDefinition.EVM.Testnet` / `.Mainnet` `.caipNetworkId`: the Hedera EVM chains 296 and 295. */
  function EvmCaipNetworkId(n: Network): (chain: string)
  {
    Eip155Data.Caip2(if n == Testnet then 296 else 295)
  }

  /** The hedera namespace, the same in both providers. */
  function HederaNamespace(n: Network, accountId: string): (ns: Namespace)
  {
    var chains := [HederaChainId(n)];
    Namespace(chains, HEDERA_METHODS, EVENTS, Accounts(chains, accountId))
  }

  /** The newer provider's namespaces: one EVM chain for the active network, the library's EVM methods. */
  function NewerNamespaces(n: Network, evmMethods: seq<string>, evmAddress: string, accountId: string): (ns: SupportedNamespaces)
  {
    var chain := EvmCaipNetworkId(n);
    SupportedNamespaces(
      Namespace([chain], evmMethods, EVENTS, [chain + ":" + evmAddress]),
      HederaNamespace(n, accountId))
  }

  /** The older provider's namespaces: the keys of the network's EIP-155 table and `EIP155_METHODS`. */
  function OlderNamespaces(n: Network, evmAddress: string, accountId: string): (ns: SupportedNamespaces)
  {
    var chains := Eip155Data.Keys(Eip155Data.ChainsFor(n));
    SupportedNamespaces(
      Namespace(chains, Eip155Data.METHOD_NAMES, EVENTS, Accounts(chains, evmAddress)),
      HederaNamespace(n, accountId))
  }

  /** A well-formed namespace: one `chain:address` account per chain, in order, and the fixed events. */
  predicate AccountPerChain(ns: Namespace, address: string)
  {
    ns.events == EVENTS &&
    |ns.accounts| == |ns.chains| &&
    forall i :: 0 <= i < |ns.chains| ==> ns.accounts[i] == ns.chains[i] + ":" + address
  }

  /**
   * Namespace negotiation in the newer provider: exactly one EVM chain and exactly
   * `hedera:<network>`, one account per chain, and the fixed events in both.
   */
  lemma NewerNamespacesShape(n: Network, evmMethods: seq<string>, evmAddress: string, accountId: string)
    ensures var ns := NewerNamespaces(n, evmMethods, evmAddress, accountId);
      ns.eip155.chains == [EvmCaipNetworkId(n)] && ns.hedera.chains == [HederaChainId(n)] &&
      ns.eip155.methods == evmMethods && ns.hedera.methods == HEDERA_METHODS &&
      AccountPerChain(ns.eip155, evmAddress) && AccountPerChain(ns.hedera, accountId)
  {
  }

  /**
   * Namespace negotiation in the older provider: the EVM chains are exactly the keys of the
   * active network's table, each with one `chain:evmAddress` account; the hedera namespace is
   * `hedera:<network>` with the account id.
   */
  lemma OlderNamespacesShape(n: Network, evmAddress: string, accountId: string)
    ensures var ns := OlderNamespaces(n, evmAddress, accountId);
      ns.eip155.chains == Eip155Data.Keys(Eip155Data.ChainsFor(n)) && ns.hedera.chains == [HederaChainId(n)] &&
      ns.eip155.methods == Eip155Data.METHOD_NAMES && ns.hedera.methods == HEDERA_METHODS &&
      AccountPerChain(ns.eip155, evmAddress) && AccountPerChain(ns.hedera, accountId)
  {
  }

  /** The two providers offer the same namespaces, except for where the EVM method list comes from. */
  lemma ProvidersOfferSameChains(n: Network, evmAddress: string, accountId: string)
    ensures NewerNamespaces(n, Eip155Data.METHOD_NAMES, evmAddress, accountId) == OlderNamespaces(n, evmAddress, accountId)
  {
    Eip155Data.OneChainPerNetwork(n);
    Eip155Data.KeysAreCaip2();
  }

  // ------------------------------------------------------------- the connection

  /** The WalletKit connection: the active session topics and pairing topics it reports. */
  datatype Connection = Connection(projectId: string, sessions: seq<string>, pairings: seq<string>)

  /** A call the wallet makes on the WalletKit connection. */
  datatype ProtocolCall =
    | ApproveSession(proposalId: int, namespaces: map<string, Namespace>)
    | RejectSession(proposalId: int, reason: SdkError)
    | RespondSessionRequest(topic: string, response: Response)
    | DisconnectSession(topic: string, reason: SdkError)
    | PairWith(uri: string)

  /** A `session_proposal` event: its id and the proposal's params. */
  datatype Proposal = Proposal(id: int, params: JsValue)

  /** The calls `disconnect` makes for a list of topics, in order. */
  function DisconnectCalls(topics: seq<string>): (calls: seq<ProtocolCall>)
  {
    seq(|topics|, i requires 0 <= i < |topics| => DisconnectSession(topics[i], UserDisconnected))
  }

  /** Disconnecting one more topic appends its call to those already made. */
  lemma DisconnectCallsStep(topics: seq<string>, i: nat)
    requires i < |topics|
    ensures DisconnectCalls(topics[..i + 1]) == DisconnectCalls(topics[..i]) + [DisconnectSession(topics[i], UserDisconnected)]
  {
  }

  // ------------------------------------------------------------------ routing

  /** The signers a request may be handed to. */
  datatype Signers = Signers(evm: Eip155Wallet.EvmPorts, decoders: Hip820Wallet.Decoders, hedera: Hip820Wallet.HederaSigner)

  /** What an approve may throw, by signer. */
  datatype ApproveFailure = EvmThrew(thrown: Thrown) | HederaThrew(error: Hip820Wallet.Hip820Error)

  /**
   * `processRequest(isConfirm)`: a method in the EVM set goes to the EVM signer, every other
   * one to the HIP-820 signer; the operator's choice picks approve or reject.
   */
  function RequestResponse(s: Signers, evmMethods: seq<string>, event: RequestEvent, confirm: bool): (r: Result<Response, ApproveFailure>)
  {
    var isEvm := event.methodName in evmMethods;
    if confirm then
      if isEvm then
        match Eip155Wallet.ApproveSessionRequest(s.evm, event)
        case Success(response) => Success(response)
        case Failure(t) => Failure(EvmThrew(t))
      else
        match Hip820Wallet.ApproveSessionRequest(s.decoders, s.hedera, event)
        case Success(response) => Success(response)
        case Failure(e) => Failure(HederaThrew(e))
    else if isEvm then Success(Eip155Wallet.RejectSessionRequest(event))
    else Success(Hip820Wallet.RejectSessionRequest(event))
  }

  /**
   * Routing: approve goes to the EVM signer exactly for methods in the EVM set and to the HIP-820
   * signer for every other method, unknown ones included; a reject always answers USER_REJECTED;
   * any response carries the request id. The first two conjuncts spell out the dispatch itself; the
   * reject and request-id conjuncts are the promises, and `SignerIsolation` states the dispatch as
   * which signer is consulted.
   */
  lemma Routing(s: Signers, evmMethods: seq<string>, event: RequestEvent, confirm: bool)
    ensures var r := RequestResponse(s, evmMethods, event, confirm);
      (confirm && event.methodName in evmMethods ==>
         r == (match Eip155Wallet.ApproveSessionRequest(s.evm, event)
               case Success(x) => Success(x) case Failure(t) => Failure(EvmThrew(t)))) &&
      (confirm && event.methodName !in evmMethods ==>
         r == (match Hip820Wallet.ApproveSessionRequest(s.decoders, s.hedera, event)
               case Success(x) => Success(x) case Failure(e) => Failure(HederaThrew(e)))) &&
      (!confirm ==> r == Success(RpcError(event.id, SdkErrorMessage(UserRejected)))) &&
      (r.Success? ==> r.value.Id() == event.id)
  {
  }

  /**
   * Only the chosen signer is consulted: for a method in the EVM set the answer depends on the EVM
   * signer alone, for any other method on the HIP-820 decoders and signer alone, and a reject
   * consults neither.
   */
  lemma SignerIsolation(s: Signers, s2: Signers, evmMethods: seq<string>, event: RequestEvent, confirm: bool)
    ensures event.methodName in evmMethods && s2.evm == s.evm ==>
      RequestResponse(s2, evmMethods, event, confirm) == RequestResponse(s, evmMethods, event, confirm)
    ensures event.methodName !in evmMethods && s2.decoders == s.decoders && s2.hedera == s.hedera ==>
      RequestResponse(s2, evmMethods, event, confirm) == RequestResponse(s, evmMethods, event, confirm)
    ensures !confirm ==>
      RequestResponse(s2, evmMethods, event, confirm) == RequestResponse(s, evmMethods, event, confirm)
  {
  }

  /**
   * An approve that throws sends nothing: the EVM signer throws exactly for a method outside
   * its switch, and the HIP-820 signer for a request it cannot parse.
   */
  lemma WhenApproveThrows(s: Signers, evmMethods: seq<string>, event: RequestEvent)
    ensures var r := RequestResponse(s, evmMethods, event, true);
      (event.methodName in evmMethods ==> (r.Failure? <==> Eip155Data.MethodOf(event.methodName).None?)) &&
      ((event.methodName !in evmMethods &&
        Hip820Wallet.ParseParams(s.decoders, event.methodName, event.chainId, event.params).error.Some?)
         ==> r.Failure?)
  {
  }
}
