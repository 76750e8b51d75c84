/**
 * The session lifecycle of src/store/HederaWalletProvider.tsx, the older provider: one account
 * id and one private key shared by the EVM and the HIP-820 signer, no vault, no lock, and
 * failures reported with `alert`.
 *
 * As in `WalletProvider`, each operation is a pure step on `LegacyState` and a method of
 * `LegacyWalletProvider` proved to end in the state the step describes.
 */
module LegacyWalletProvider {
  import opened Wrappers
  import opened Rpc
  import Eip155Data
  import Sessions
  import WalletProvider

  /** What an `alert` showed: a thrown value, or the failure of a request's approve. */
  datatype Alert = ThrownAlert(thrown: Thrown) | RequestAlert(failure: Sessions.ApproveFailure)

  /** Everything the older provider calls that the model does not look into. */
  datatype LegacyEnv = LegacyEnv(
    /** `EIP155Wallet.init({ privateKey })` */
    evmWalletInit: string -> Result<WalletProvider.EvmAccount, Thrown>,
    /** `HIP820Wallet.init({ chainId: hedera:<network>, accountId, privateKey })` */
    hip820Init: (string, string, Network) -> Result<WalletProvider.HederaAccount, Thrown>,
    /** `createWalletKit()`, whose project id comes from the build's environment */
    createWalletKit: Result<Sessions.Connection, Thrown>,
    /** `buildApprovedNamespaces(params)` */
    buildApprovedNamespaces: (JsValue, Sessions.SupportedNamespaces) -> Result<map<string, Sessions.Namespace>, Thrown>,
    /** the signers behind the two wallet handles */
    signers: (WalletProvider.EvmAccount, WalletProvider.HederaAccount) -> Sessions.Signers)

  datatype LegacyState = LegacyState(
    isInitialized: bool,
    eip155Wallet: Option<WalletProvider.EvmAccount>,
    hip820Wallet: Option<WalletProvider.HederaAccount>,
    /** `walletkit.current` */
    walletkit: Option<Sessions.Connection>,
    network: Network,
    /** the alerts shown so far */
    alerts: seq<Alert>,
    /** the calls made on WalletKit so far */
    sent: seq<Sessions.ProtocolCall>)

  /** An initialized provider has its connection and both signers. */
  predicate Consistent(s: LegacyState)
  {
    s.isInitialized ==> s.walletkit.Some? && s.eip155Wallet.Some? && s.hip820Wallet.Some?
  }

  /** The state on mount. */
  function Mount(): (s: LegacyState)
    ensures Consistent(s) && !s.isInitialized && s.walletkit.None? && s.network == Testnet && s.sent == []
  {
    LegacyState(false, None, None, None, Testnet, [], [])
  }

  // -------------------------------------------------------------------- steps

  /** The end of `initialize`: a connection is created only when none is held. */
  function ConnectStep(s: LegacyState, env: LegacyEnv): LegacyState
  {
    if s.walletkit.Some? then s.(isInitialized := true)
    else
      match env.createWalletKit
      case Failure(t) => s.(alerts := s.alerts + [ThrownAlert(t)])
      case Success(kit) => s.(walletkit := Some(kit), isInitialized := true)
  }

  /**
   * `initialize(accountId, privateKey, network)`: guarded by `isInitialized` only. The network is
   * set first; both signers are made from the same key and set together, before the connection.
   */
  function InitializeStep(s: LegacyState, env: LegacyEnv, accountId: string, privateKey: string, network: Network): LegacyState
  {
    if s.isInitialized then s
    else
      var s1 := s.(network := network);
      match env.evmWalletInit(privateKey)
      case Failure(t) => s1.(alerts := s1.alerts + [ThrownAlert(t)])
      case Success(evm) =>
        match env.hip820Init(accountId, privateKey, network)
        case Failure(t) => s1.(alerts := s1.alerts + [ThrownAlert(t)])
        case Success(hedera) => ConnectStep(s1.(eip155Wallet := Some(evm), hip820Wallet := Some(hedera)), env)
  }

  /**
   * `onSessionProposal`, then the operator's answer to `confirm`. A missing connection or signer
   * throws before the prompt. A reject sends USER_REJECTED_METHODS and then falls through to the
   * approval like an accept does; a failure to build the namespaces is alerted.
   */
  function ProposalStep(s: LegacyState, env: LegacyEnv, proposal: Sessions.Proposal, confirm: bool): LegacyState
  {
    if s.walletkit.None? || s.eip155Wallet.None? || s.hip820Wallet.None? then s
    else
      var s1 := if confirm then s else s.(sent := s.sent + [Sessions.RejectSession(proposal.id, UserRejectedMethods)]);
      var supported := Sessions.OlderNamespaces(s.network, s.eip155Wallet.value.address, s.hip820Wallet.value.accountId);
      match env.buildApprovedNamespaces(proposal.params, supported)
      case Failure(t) => s1.(alerts := s1.alerts + [ThrownAlert(t)])
      case Success(namespaces) => s1.(sent := s1.sent + [Sessions.ApproveSession(proposal.id, namespaces)])
  }

  /**
   * `onSessionRequest`, then the operator's answer to `confirm`. Everything is inside one
   * `try`: a missing connection or signer, and an approve that throws, are alerted; otherwise the
   * response is sent on the request's topic. The EVM signer takes the methods of `EIP155_METHODS`.
   */
  function RequestStep(s: LegacyState, env: LegacyEnv, event: RequestEvent, confirm: bool): LegacyState
  {
    if s.walletkit.None? then s.(alerts := s.alerts + [ThrownAlert(ErrorObject(WalletProvider.WALLETKIT_MISSING))])
    else if s.eip155Wallet.None? then s.(alerts := s.alerts + [ThrownAlert(ErrorObject(WalletProvider.EVM_WALLET_MISSING))])
    else if s.hip820Wallet.None? then s.(alerts := s.alerts + [ThrownAlert(ErrorObject(WalletProvider.HEDERA_WALLET_MISSING))])
    else Answer(s, event.topic, Sessions.RequestResponse(env.signers(s.eip155Wallet.value, s.hip820Wallet.value), Eip155Data.METHOD_NAMES, event, confirm))
  }

  /** A response is sent on the topic; an approve that threw is alerted instead. */
  function Answer(s: LegacyState, topic: string, r: Result<Response, Sessions.ApproveFailure>): LegacyState
  {
    match r
    case Failure(f) => s.(alerts := s.alerts + [RequestAlert(f)])
    case Success(response) => s.(sent := s.sent + [Sessions.RespondSessionRequest(topic, response)])
  }

  /** `disconnect()`: the connection and the signers are kept; only `isInitialized` is cleared. */
  function DisconnectStep(s: LegacyState): (LegacyState, Option<Thrown>)
  {
    match s.walletkit
    case None => (s, Some(ErrorObject(WalletProvider.WALLETKIT_MISSING)))
    case Some(kit) =>
      (s.(sent := s.sent + Sessions.DisconnectCalls(kit.sessions) + Sessions.DisconnectCalls(kit.pairings),
          isInitialized := false), None)
  }

  /** `pair(uri)`. */
  function PairStep(s: LegacyState, uri: string): (LegacyState, Option<Thrown>)
  {
    if s.walletkit.None? then (s, Some(ErrorObject(WalletProvider.WALLETKIT_MISSING)))
    else (s.(sent := s.sent + [Sessions.PairWith(uri)]), None)
  }

  // -------------------------------------------------------------- properties

  /** `initialize` does nothing once initialized; a held connection does not stop it. */
  lemma InitializeIsGuarded(s: LegacyState, env: LegacyEnv, accountId: string, privateKey: string, network: Network)
    ensures s.isInitialized ==> InitializeStep(s, env, accountId, privateKey, network) == s
    ensures !s.isInitialized ==> InitializeStep(s, env, accountId, privateKey, network).network == network
  {
  }

  /**
   * `initialize` ends initialized exactly when both signers are made from the one key and a
   * connection is held or created; it then holds those signers, and keeps a connection it
   * already had. Every failure adds exactly one alert, with what was thrown, and sends nothing.
   */
  lemma InitializeOutcome(s: LegacyState, env: LegacyEnv, accountId: string, privateKey: string, network: Network)
    requires !s.isInitialized
    ensures var s1 := InitializeStep(s, env, accountId, privateKey, network);
      s1.isInitialized <==>
        env.evmWalletInit(privateKey).Success? && env.hip820Init(accountId, privateKey, network).Success? &&
        (s.walletkit.Some? || env.createWalletKit.Success?)
    ensures var s1 := InitializeStep(s, env, accountId, privateKey, network);
      s1.isInitialized ==>
        s1.eip155Wallet == Some(env.evmWalletInit(privateKey).value) &&
        s1.hip820Wallet == Some(env.hip820Init(accountId, privateKey, network).value) &&
        s1.walletkit == (if s.walletkit.Some? then s.walletkit else Some(env.createWalletKit.value)) &&
        s1.alerts == s.alerts
    ensures var s1 := InitializeStep(s, env, accountId, privateKey, network);
      !s1.isInitialized ==> |s1.alerts| == |s.alerts| + 1 && s1.alerts[..|s.alerts|] == s.alerts
    ensures InitializeStep(s, env, accountId, privateKey, network).sent == s.sent
  {
  }

  /**
   * `disconnect` clears only `isInitialized`, so a later `initialize` reuses the same
   * connection without calling `createWalletKit`, and succeeds when both signers are made.
   */
  lemma ReinitializeReusesConnection(s: LegacyState, env: LegacyEnv, accountId: string, privateKey: string, network: Network)
    requires s.walletkit.Some?
    ensures var s1 := InitializeStep(DisconnectStep(s).0, env, accountId, privateKey, network);
      s1.walletkit == s.walletkit &&
      (s1.isInitialized <==> env.evmWalletInit(privateKey).Success? && env.hip820Init(accountId, privateKey, network).Success?)
  {
    var d := DisconnectStep(s).0;
    assert !d.isInitialized && d.walletkit == s.walletkit;
    InitializeOutcome(d, env, accountId, privateKey, network);
  }

  /**
   * A proposal against a complete provider: a reject sends USER_REJECTED_METHODS and the
   * approval still follows when the namespaces build; an accept only approves. The namespaces
   * are what `buildApprovedNamespaces` makes of the network's EIP-155 chains and the hedera chain.
   */
  lemma ProposalOutcome(s: LegacyState, env: LegacyEnv, proposal: Sessions.Proposal, confirm: bool)
    requires s.walletkit.Some? && s.eip155Wallet.Some? && s.hip820Wallet.Some?
    ensures var s1 := ProposalStep(s, env, proposal, confirm);
      var supported := Sessions.OlderNamespaces(s.network, s.eip155Wallet.value.address, s.hip820Wallet.value.accountId);
      var built := env.buildApprovedNamespaces(proposal.params, supported);
      var rejected := if confirm then [] else [Sessions.RejectSession(proposal.id, UserRejectedMethods)];
      (built.Success? ==> s1.sent == s.sent + rejected + [Sessions.ApproveSession(proposal.id, built.value)] &&
                          s1.alerts == s.alerts) &&
      (built.Failure? ==> s1.sent == s.sent + rejected && s1.alerts == s.alerts + [ThrownAlert(built.error)])
  {
  }

  /** A proposal without the connection or a signer changes nothing: the handler throws. */
  lemma ProposalWithoutSigners(s: LegacyState, env: LegacyEnv, proposal: Sessions.Proposal, confirm: bool)
    requires s.walletkit.None? || s.eip155Wallet.None? || s.hip820Wallet.None?
    ensures ProposalStep(s, env, proposal, confirm) == s
  {
  }

  /**
   * A request without the connection or a signer is alerted with the missing handle's message,
   * and nothing else changes. Otherwise the routed answer decides: a response is sent once on the
   * request's topic, carrying its id, and nothing is alerted; an approve that throws is alerted
   * once and nothing is sent. A decline always answers USER_REJECTED.
   */
  lemma RequestOutcome(s: LegacyState, env: LegacyEnv, event: RequestEvent, confirm: bool)
    ensures s.walletkit.None? ==>
      RequestStep(s, env, event, confirm) == s.(alerts := s.alerts + [ThrownAlert(ErrorObject(WalletProvider.WALLETKIT_MISSING))])
    ensures s.walletkit.Some? && s.eip155Wallet.None? ==>
      RequestStep(s, env, event, confirm) == s.(alerts := s.alerts + [ThrownAlert(ErrorObject(WalletProvider.EVM_WALLET_MISSING))])
    ensures s.walletkit.Some? && s.eip155Wallet.Some? && s.hip820Wallet.None? ==>
      RequestStep(s, env, event, confirm) == s.(alerts := s.alerts + [ThrownAlert(ErrorObject(WalletProvider.HEDERA_WALLET_MISSING))])
    ensures var s1 := RequestStep(s, env, event, confirm);
      s.walletkit.Some? && s.eip155Wallet.Some? && s.hip820Wallet.Some? ==>
        var r := Sessions.RequestResponse(env.signers(s.eip155Wallet.value, s.hip820Wallet.value), Eip155Data.METHOD_NAMES, event, confirm);
        (r.Success? ==> s1.sent == s.sent + [Sessions.RespondSessionRequest(event.topic, r.value)] &&
                        s1.alerts == s.alerts && r.value.Id() == event.id) &&
        (r.Failure? ==> s1.sent == s.sent && s1.alerts == s.alerts + [RequestAlert(r.error)]) &&
        (!confirm ==> s1.sent == s.sent + [Sessions.RespondSessionRequest(event.topic, RpcError(event.id, SdkErrorMessage(UserRejected)))] &&
                      s1.alerts == s.alerts)
  {
    if s.walletkit.Some? && s.eip155Wallet.Some? && s.hip820Wallet.Some? {
      Sessions.Routing(env.signers(s.eip155Wallet.value, s.hip820Wallet.value), Eip155Data.METHOD_NAMES, event, confirm);
    }
  }

  /**
   * `disconnect` throws without a connection; otherwise it disconnects every session and then
   * every pairing with USER_DISCONNECTED, keeping the connection and the signers.
   */
  lemma DisconnectOutcome(s: LegacyState)
    ensures s.walletkit.None? ==> DisconnectStep(s) == (s, Some(ErrorObject(WalletProvider.WALLETKIT_MISSING)))
    ensures s.walletkit.Some? ==>
      var (s1, error) := DisconnectStep(s);
      var kit := s.walletkit.value;
      error.None? && !s1.isInitialized && s1.walletkit == s.walletkit &&
      s1.eip155Wallet == s.eip155Wallet && s1.hip820Wallet == s.hip820Wallet &&
      |s1.sent| == |s.sent| + |kit.sessions| + |kit.pairings| && s1.sent[..|s.sent|] == s.sent &&
      (forall i :: 0 <= i < |kit.sessions| ==>
         s1.sent[|s.sent| + i] == Sessions.DisconnectSession(kit.sessions[i], UserDisconnected)) &&
      (forall i :: 0 <= i < |kit.pairings| ==>
         s1.sent[|s.sent| + |kit.sessions| + i] == Sessions.DisconnectSession(kit.pairings[i], UserDisconnected))
  {
  }

  /** `pair` throws without a connection, and otherwise asks WalletKit to pair with the URI. */
  lemma PairOutcome(s: LegacyState, uri: string)
    ensures s.walletkit.None? ==> PairStep(s, uri) == (s, Some(ErrorObject(WalletProvider.WALLETKIT_MISSING)))
    ensures s.walletkit.Some? ==> PairStep(s, uri) == (s.(sent := s.sent + [Sessions.PairWith(uri)]), None)
  {
  }

  /** Every operation keeps an initialized provider's connection and signers in place. */
  lemma LifecycleKeepsConsistent(s: LegacyState, env: LegacyEnv, accountId: string, privateKey: string, network: Network,
                                 uri: string)
    requires Consistent(s)
    ensures Consistent(InitializeStep(s, env, accountId, privateKey, network))
    ensures Consistent(DisconnectStep(s).0)
    ensures Consistent(PairStep(s, uri).0)
  {
    if !s.isInitialized {
      InitializeOutcome(s, env, accountId, privateKey, network);
    }
  }

  /** The proposal handler changes only what is sent and alerted. */
  lemma ProposalKeepsConsistent(s: LegacyState, env: LegacyEnv, proposal: Sessions.Proposal, confirm: bool)
    requires Consistent(s)
    ensures Consistent(ProposalStep(s, env, proposal, confirm))
  {
  }

  /** So does the request handler. */
  lemma RequestKeepsConsistent(s: LegacyState, env: LegacyEnv, event: RequestEvent, confirm: bool)
    requires Consistent(s)
    ensures Consistent(RequestStep(s, env, event, confirm))
  {
    if s.walletkit.Some? && s.eip155Wallet.Some? && s.hip820Wallet.Some? {
      AnswerKeepsConsistent(s, event.topic,
        Sessions.RequestResponse(env.signers(s.eip155Wallet.value, s.hip820Wallet.value), Eip155Data.METHOD_NAMES, event, confirm));
    }
  }

  lemma AnswerKeepsConsistent(s: LegacyState, topic: string, r: Result<Response, Sessions.ApproveFailure>)
    requires Consistent(s)
    ensures Consistent(Answer(s, topic, r))
  {
  }

  // ------------------------------------------------------------------- the class

  class LegacyWalletProvider {
    var isInitialized: bool
    var eip155Wallet: Option<WalletProvider.EvmAccount>
    var hip820Wallet: Option<WalletProvider.HederaAccount>
    var walletkit: Option<Sessions.Connection>
    var network: Network
    var alerts: seq<Alert>
    var sent: seq<Sessions.ProtocolCall>

    function State(): LegacyState
      reads this
    {
      LegacyState(isInitialized, eip155Wallet, hip820Wallet, walletkit, network, alerts, sent)
    }

    /** Mounting the provider. */
    constructor()
      ensures State() == Mount()
    {
      isInitialized := false;
      eip155Wallet := None;
      hip820Wallet := None;
      walletkit := None;
      network := Testnet;
      alerts := [];
      sent := [];
    }

    /** `initialize(accountId, privateKey, network)`. */
    method Initialize(env: LegacyEnv, accountId: string, privateKey: string, network: Network)
      modifies this
      ensures State() == InitializeStep(old(State()), env, accountId, privateKey, network)
    {
      if isInitialized {
        return;
      }
      this.network := network;
      var evm := env.evmWalletInit(privateKey);
      if evm.Failure? {
        alerts := alerts + [ThrownAlert(evm.error)];
        return;
      }
      var hedera := env.hip820Init(accountId, privateKey, network);
      if hedera.Failure? {
        alerts := alerts + [ThrownAlert(hedera.error)];
        return;
      }
      eip155Wallet := Some(evm.value);
      hip820Wallet := Some(hedera.value);
      if walletkit.None? {
        var kit := env.createWalletKit;
        if kit.Failure? {
          alerts := alerts + [ThrownAlert(kit.error)];
          return;
        }
        walletkit := Some(kit.value);
      }
      isInitialized := true;
    }

    /** A `session_proposal` event and the operator's answer to `confirm`. */
    method OnSessionProposal(env: LegacyEnv, proposal: Sessions.Proposal, confirm: bool)
      modifies this
      ensures State() == ProposalStep(old(State()), env, proposal, confirm)
    {
      if walletkit.None? || eip155Wallet.None? || hip820Wallet.None? {
        return;
      }
      if !confirm {
        sent := sent + [Sessions.RejectSession(proposal.id, UserRejectedMethods)];
      }
      var supported := Sessions.OlderNamespaces(network, eip155Wallet.value.address, hip820Wallet.value.accountId);
      var approved := env.buildApprovedNamespaces(proposal.params, supported);
      if approved.Failure? {
        alerts := alerts + [ThrownAlert(approved.error)];
        return;
      }
      sent := sent + [Sessions.ApproveSession(proposal.id, approved.value)];
    }

    /** A `session_request` event and the operator's answer to `confirm`. */
    method OnSessionRequest(env: LegacyEnv, event: RequestEvent, confirm: bool)
      modifies this
      ensures State() == RequestStep(old(State()), env, event, confirm)
    {
      if walletkit.None? {
        alerts := alerts + [ThrownAlert(ErrorObject(WalletProvider.WALLETKIT_MISSING))];
        return;
      }
      if eip155Wallet.None? {
        alerts := alerts + [ThrownAlert(ErrorObject(WalletProvider.EVM_WALLET_MISSING))];
        return;
      }
      if hip820Wallet.None? {
        alerts := alerts + [ThrownAlert(ErrorObject(WalletProvider.HEDERA_WALLET_MISSING))];
        return;
      }
      var response := Sessions.RequestResponse(env.signers(eip155Wallet.value, hip820Wallet.value),
                                               Eip155Data.METHOD_NAMES, event, confirm);
      if response.Failure? {
        alerts := alerts + [RequestAlert(response.error)];
        return;
      }
      sent := sent + [Sessions.RespondSessionRequest(event.topic, response.value)];
    }

    /** `disconnect()`: every active session, then every pairing, is disconnected. */
    method Disconnect() returns (error: Option<Thrown>)
      modifies this
      ensures (State(), error) == DisconnectStep(old(State()))
    {
      if walletkit.None? {
        return Some(ErrorObject(WalletProvider.WALLETKIT_MISSING));
      }
      var kit := walletkit.value;
      DisconnectTopics(kit.sessions);
      DisconnectTopics(kit.pairings);
      isInitialized := false;
      return None;
    }

    /** One `disconnectSession` call with USER_DISCONNECTED per topic, in order. */
    method DisconnectTopics(topics: seq<string>)
      modifies this
      ensures State() == old(State()).(sent := old(sent) + Sessions.DisconnectCalls(topics))
    {
      ghost var s0 := State();
      var i := 0;
      while i < |topics|
        invariant 0 <= i <= |topics|
        invariant State() == s0.(sent := sent)
        invariant sent == s0.sent + Sessions.DisconnectCalls(topics[..i])
      {
        sent := sent + [Sessions.DisconnectSession(topics[i], UserDisconnected)];
        Sessions.DisconnectCallsStep(topics, i);
        i := i + 1;
      }
      assert topics[..i] == topics;
    }

    /** `pair(uri)`. */
    method Pair(uri: string) returns (error: Option<Thrown>)
      modifies this
      ensures (State(), error) == PairStep(old(State()), uri)
    {
      if walletkit.None? {
        return Some(ErrorObject(WalletProvider.WALLETKIT_MISSING));
      }
      sent := sent + [Sessions.PairWith(uri)];
      return None;
    }
  }
}
