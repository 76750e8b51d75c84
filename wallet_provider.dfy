/**
 * The session lifecycle of src/store/hedera-wallet-provider.tsx, the provider holding an ECDSA
 * (EVM) account and an Ed25519 (native) account: initialize with an optional password vault,
 * unlock, lock, disconnect, pair, and the proposal and request handlers.
 *
 * Each operation is a pure step on `ProviderState` and a method of `WalletProvider` that performs it
 * field by field and is proved to end in the state the step describes. The browser storages
 * are maps; WalletKit, the signers and the random draws are inputs.
 */
module WalletProvider {
  import opened Wrappers
  import opened Rpc
  import Base64
  import CredentialVault
  import HederaAddress
  import Sessions

  const VAULT_KEY := "encryptedWalletData"
  const HASH_KEY := "walletPasswordHash"

  const INIT_ERROR_TITLE := "Initialization Error"
  const INIT_ERROR_FALLBACK := "Failed to initialize wallet"
  const MISSING_CREDENTIALS := "Both ECDSA and Ed25519 accounts are required"
  const SESSION_ERROR_TITLE := "Session Error"
  const SESSION_ERROR_FALLBACK := "Failed to process session"
  const REQUEST_ERROR_TITLE := "Request Error"
  const WALLETKIT_MISSING := "WalletKit not initialized"
  const EVM_WALLET_MISSING := "EIP155Wallet not initialized"
  const HEDERA_WALLET_MISSING := "HIP820Wallet not initialized"

  datatype ModalKind = ConfirmModal | ErrorModal | InfoModal

  /** The open modal; `None` once it is closed. */
  datatype Modal = Modal(title: string, text: string, kind: ModalKind)

  /** The four credentials `initialize` takes. */
  datatype Credentials = Credentials(
    ecdsaAccountId: string, ecdsaPrivateKey: string, ed25519AccountId: string, ed25519PrivateKey: string)

  /** All four are non-empty: the check that follows the vault write. */
  predicate Complete(c: Credentials)
  {
    c.ecdsaAccountId != "" && c.ecdsaPrivateKey != "" && c.ed25519AccountId != "" && c.ed25519PrivateKey != ""
  }

  /** The object that is stringified into the vault. */
  datatype WalletData = WalletData(credentials: Credentials, network: Network, projectId: string)

  /** An `EIP155Wallet` handle: its key and its EVM address. */
  datatype EvmAccount = EvmAccount(privateKey: string, address: string)

  /** A `HIP820Wallet` handle: the account id its Hedera wallet reports, and its network. */
  datatype HederaAccount = HederaAccount(accountId: string, network: Network)

  /** Everything the provider calls that the model does not look into. */
  datatype Env = Env(
    crypto: CredentialVault.Primitives,
    /** `JSON.stringify(walletData)` */
    stringify: WalletData -> string,
    /** `JSON.parse(text)` */
    parse: string -> Result<JsValue, Thrown>,
    /** `EIP155Wallet.init({ privateKey })` */
    evmWalletInit: string -> Result<EvmAccount, Thrown>,
    /** `PrivateKey.fromStringED25519(key)` and `HIP820Wallet.init` for (account id, key, network) */
    hip820Init: (string, string, Network) -> Result<HederaAccount, Thrown>,
    fetch: HederaAddress.Fetch,
    sdk: HederaAddress.SdkConversion,
    /** `createWalletKit(projectId)` */
    createWalletKit: string -> Result<Sessions.Connection, Thrown>,
    /** `Object.values(Eip155JsonRpcMethod)` */
    evmMethods: seq<string>,
    /** `buildApprovedNamespaces({ proposal, supportedNamespaces })` */
    buildApprovedNamespaces: (JsValue, Sessions.SupportedNamespaces) -> Result<map<string, Sessions.Namespace>, Thrown>,
    /** the signers behind the two wallet handles */
    signers: (EvmAccount, HederaAccount) -> Sessions.Signers)

  /** What `JSON.parse(JSON.stringify(walletData))` gives back. */
  function WalletDataJson(w: WalletData): (v: JsValue)
  {
    Object(map[
      "ecdsaAccountId" := Str(w.credentials.ecdsaAccountId),
      "ecdsaPrivateKey" := Str(w.credentials.ecdsaPrivateKey),
      "ed25519AccountId" := Str(w.credentials.ed25519AccountId),
      "ed25519PrivateKey" := Str(w.credentials.ed25519PrivateKey),
      "network" := Str(NetworkName(w.network)),
      "projectId" := Str(w.projectId)])
  }

  /** JSON round-trips the wallet data. */
  ghost predicate JsonRoundTrip(env: Env)
  {
    forall w :: env.parse(env.stringify(w)) == Success(WalletDataJson(w))
  }

  /** `JSON.stringify` of the wallet data is object text, which begins with `{`. */
  ghost predicate StringifiesObjects(env: Env)
  {
    forall w :: |env.stringify(w)| > 0 && env.stringify(w)[0] == '{'
  }

  /**
   * A field read as text. A vault only ever holds what `initialize` stringified, where every field
   * is a string; a field that is not a string, which only a record written by other code could
   * hold, reads as empty here.
   */
  function Text(v: JsValue): (s: string)
  {
    if v.Str? then v.s else ""
  }

  /** `walletData.ecdsaAccountId`, …: reading a field of `undefined` or `null` throws. */
  function ReadWalletData(v: JsValue): (r: Result<WalletData, Thrown>)
    ensures r.Failure? <==> v.Undefined? || v.Null?
  {
    if v.Undefined? || v.Null? then Failure(ErrorObject(PROPERTY_OF_NOTHING))
    else
      var c := Credentials(
        Text(Get(v, "ecdsaAccountId").value), Text(Get(v, "ecdsaPrivateKey").value),
        Text(Get(v, "ed25519AccountId").value), Text(Get(v, "ed25519PrivateKey").value));
      Success(WalletData(c, if Text(Get(v, "network").value) == "testnet" then Testnet else Mainnet,
                         Text(Get(v, "projectId").value)))
  }

  /** The wallet data read back from its JSON is the wallet data. */
  lemma ReadWalletDataJson(w: WalletData)
    ensures ReadWalletData(WalletDataJson(w)) == Success(w)
  {
    var v := WalletDataJson(w);
    assert Get(v, "network").value == Str(NetworkName(w.network));
    assert Get(v, "ecdsaAccountId").value == Str(w.credentials.ecdsaAccountId);
    assert Get(v, "ecdsaPrivateKey").value == Str(w.credentials.ecdsaPrivateKey);
    assert Get(v, "ed25519AccountId").value == Str(w.credentials.ed25519AccountId);
    assert Get(v, "ed25519PrivateKey").value == Str(w.credentials.ed25519PrivateKey);
    assert Get(v, "projectId").value == Str(w.projectId);
  }

  /** `(err as Error).message || fallback` */
  function ErrorText(t: Thrown, fallback: string): (text: string)
  {
    if t.ErrorObject? && t.message != "" then t.message else fallback
  }

  function PasswordGiven(password: Option<string>): bool
  {
    password.Some? && password.value != ""
  }

  // ------------------------------------------------------------------ the state

  datatype ProviderState = ProviderState(
    isInitialized: bool,
    isLocked: bool,
    hasStoredCredentials: bool,
    eip155Wallet: Option<EvmAccount>,
    hip820Wallet: Option<HederaAccount>,
    /** `walletkit.current` */
    walletkit: Option<Sessions.Connection>,
    network: Network,
    ecdsaAccountId: string,
    ed25519AccountId: string,
    ed25519EvmAddress: string,
    ed25519EvmAddressSource: Option<HederaAddress.Source>,
    modal: Option<Modal>,
    localStorage: map<string, string>,
    sessionStorage: map<string, string>,
    /** the calls made on WalletKit so far */
    sent: seq<Sessions.ProtocolCall>)

  /** A stored, non-empty vault record. */
  predicate HasVault(storage: map<string, string>)
  {
    VAULT_KEY in storage && storage[VAULT_KEY] != ""
  }

  /** An initialized provider has its connection and both signers. */
  predicate Consistent(s: ProviderState)
  {
    s.isInitialized ==> s.walletkit.Some? && s.eip155Wallet.Some? && s.hip820Wallet.Some?
  }

  /** The state on mount: nothing initialized, locked, and whether a vault is already stored. */
  function Mount(localStorage: map<string, string>, sessionStorage: map<string, string>): (s: ProviderState)
    ensures Consistent(s) && !s.isInitialized && s.isLocked
    ensures s.hasStoredCredentials <==> HasVault(localStorage)
  {
    ProviderState(false, true, HasVault(localStorage), None, None, None, Testnet, "", "", "", None, None,
          localStorage, sessionStorage, [])
  }

  // -------------------------------------------------------------------- steps

  function InitErrorModal(text: string): Option<Modal>
  {
    Some(Modal(INIT_ERROR_TITLE, text, ErrorModal))
  }

  /** The vault write of `initialize`, when a password is given. */
  function StoreVault(s: ProviderState, env: Env, data: WalletData, password: string, salt: seq<Base64.byte>, iv: seq<Base64.byte>): ProviderState
  {
    s.(localStorage := s.localStorage[VAULT_KEY := CredentialVault.Sealed(env.crypto, env.stringify(data), password, salt, iv)],
       sessionStorage := s.sessionStorage[HASH_KEY := CredentialVault.HashPassword(env.crypto, password)],
       hasStoredCredentials := true)
  }

  /** The vault write of `initialize`: only when a password is given. */
  function PersistVault(s: ProviderState, env: Env, data: WalletData, password: Option<string>,
                        salt: seq<Base64.byte>, iv: seq<Base64.byte>): ProviderState
  {
    if PasswordGiven(password) then StoreVault(s, env, data, password.value, salt, iv) else s
  }

  /** The end of `initialize`: create the WalletKit connection, then mark initialized and unlocked. */
  function ConnectStep(s: ProviderState, env: Env, projectId: string): ProviderState
  {
    match env.createWalletKit(projectId)
    case Failure(t) => s.(modal := InitErrorModal(ErrorText(t, INIT_ERROR_FALLBACK)))
    case Success(kit) => s.(walletkit := Some(kit), isInitialized := true, isLocked := false)
  }

  /** The part of `initialize` after the vault write: the credential check, the two signers, the EVM address. */
  function CreateWalletsStep(s: ProviderState, env: Env, c: Credentials, network: Network, projectId: string): ProviderState
  {
    if !Complete(c) then s.(modal := InitErrorModal(MISSING_CREDENTIALS))
    else
      match env.evmWalletInit(c.ecdsaPrivateKey)
      case Failure(t) => s.(modal := InitErrorModal(ErrorText(t, INIT_ERROR_FALLBACK)))
      case Success(evm) =>
        match env.hip820Init(c.ed25519AccountId, c.ed25519PrivateKey, network)
        case Failure(t) => s.(modal := InitErrorModal(ErrorText(t, INIT_ERROR_FALLBACK)))
        case Success(hedera) =>
          var address := HederaAddress.GetEd25519EvmAddress(env.fetch, env.sdk, c.ed25519AccountId, network);
          ConnectStep(AdoptStep(s, evm, hedera, c, address), env, projectId)
  }

  /** The two signers, the account ids and the Ed25519 account's EVM address, as `initialize` sets them. */
  function AdoptStep(s: ProviderState, evm: EvmAccount, hedera: HederaAccount, c: Credentials,
                     address: HederaAddress.EvmAddress): ProviderState
  {
    s.(eip155Wallet := Some(evm), hip820Wallet := Some(hedera),
       ecdsaAccountId := c.ecdsaAccountId, ed25519AccountId := c.ed25519AccountId,
       ed25519EvmAddress := address.address, ed25519EvmAddressSource := Some(address.source))
  }

  /** `initialize(…, password?)`: a no-op once initialized or connected. */
  function InitializeStep(s: ProviderState, env: Env, c: Credentials, network: Network, projectId: string,
                          password: Option<string>, salt: seq<Base64.byte>, iv: seq<Base64.byte>): ProviderState
  {
    if s.isInitialized || s.walletkit.Some? then s
    else
      var s1 := PersistVault(s.(network := network), env, WalletData(c, network, projectId), password, salt, iv);
      CreateWalletsStep(s1, env, c, network, projectId)
  }

  /** `unlock(password)`: the new state and the returned flag. */
  function UnlockStep(s: ProviderState, env: Env, password: string): (ProviderState, bool)
  {
    if !HasVault(s.localStorage) then (s, false)
    else
      match CredentialVault.Decrypt(env.crypto, s.localStorage[VAULT_KEY], password)
      case Failure(_) => (s, false)
      case Success(text) =>
        match env.parse(text)
        case Failure(_) => (s, false)
        case Success(json) =>
          match ReadWalletData(json)
          case Failure(_) => (s, false)
          case Success(data) =>
            var s1 := InitializeStep(s, env, data.credentials, data.network, data.projectId, None, [], []);
            (s1.(sessionStorage := s1.sessionStorage[HASH_KEY := CredentialVault.HashPassword(env.crypto, password)],
                 isLocked := false), true)
  }

  /** `lock()`. */
  function LockStep(s: ProviderState): ProviderState
  {
    s.(eip155Wallet := None, hip820Wallet := None, walletkit := None, isInitialized := false, isLocked := true,
       sessionStorage := s.sessionStorage - {HASH_KEY})
  }

  /** `disconnect()`: the new state, and what it throws. */
  function DisconnectStep(s: ProviderState): (ProviderState, Option<Thrown>)
  {
    match s.walletkit
    case None => (s, Some(ErrorObject(WALLETKIT_MISSING)))
    case Some(kit) =>
      (s.(sent := s.sent + Sessions.DisconnectCalls(kit.sessions) + Sessions.DisconnectCalls(kit.pairings),
          isInitialized := false, isLocked := true, walletkit := None), None)
  }

  /** `pair(uri)`. */
  function PairStep(s: ProviderState, uri: string): (ProviderState, Option<Thrown>)
  {
    if s.walletkit.None? then (s, Some(ErrorObject(WALLETKIT_MISSING)))
    else (s.(sent := s.sent + [Sessions.PairWith(uri)]), None)
  }

  /**
   * `onSessionProposal`, then the operator's choice. With a signer missing the handler throws
   * before showing anything. On approve the namespaces are built and the session approved, or a
   * Session Error modal opens; on reject the proposal is rejected with USER_REJECTED_METHODS.
   */
  function ProposalStep(s: ProviderState, env: Env, proposal: Sessions.Proposal, confirm: bool): ProviderState
  {
    if s.walletkit.None? || s.eip155Wallet.None? || s.hip820Wallet.None? then s
    else if !confirm then
      s.(modal := None, sent := s.sent + [Sessions.RejectSession(proposal.id, UserRejectedMethods)])
    else
      var supported := Sessions.NewerNamespaces(s.network, env.evmMethods, s.eip155Wallet.value.address,
                                                s.hip820Wallet.value.accountId);
      match env.buildApprovedNamespaces(proposal.params, supported)
      case Failure(t) => s.(modal := Some(Modal(SESSION_ERROR_TITLE, ErrorText(t, SESSION_ERROR_FALLBACK), ErrorModal)))
      case Success(namespaces) => s.(modal := None, sent := s.sent + [Sessions.ApproveSession(proposal.id, namespaces)])
  }

  /**
   * `onSessionRequest`, then the operator's choice. A missing connection or signer opens a
   * Request Error modal. Otherwise the routed response is sent on the request's topic; an
   * approve that throws escapes the handler, and nothing is sent.
   */
  function RequestStep(s: ProviderState, env: Env, event: RequestEvent, confirm: bool): ProviderState
  {
    if s.walletkit.None? then s.(modal := Some(Modal(REQUEST_ERROR_TITLE, WALLETKIT_MISSING, ErrorModal)))
    else if s.eip155Wallet.None? then s.(modal := Some(Modal(REQUEST_ERROR_TITLE, EVM_WALLET_MISSING, ErrorModal)))
    else if s.hip820Wallet.None? then s.(modal := Some(Modal(REQUEST_ERROR_TITLE, HEDERA_WALLET_MISSING, ErrorModal)))
    else Answer(s, event.topic, Sessions.RequestResponse(env.signers(s.eip155Wallet.value, s.hip820Wallet.value), env.evmMethods, event, confirm))
  }

  /** The modal closes, and a response, when the approve or reject gave one, is sent on the topic. */
  function Answer(s: ProviderState, topic: string, r: Result<Response, Sessions.ApproveFailure>): ProviderState
  {
    match r
    case Failure(_) => s.(modal := None)
    case Success(response) => s.(modal := None, sent := s.sent + [Sessions.RespondSessionRequest(topic, response)])
  }

  // -------------------------------------------------------------- properties

  /** `initialize` does nothing once the provider is initialized or holds a connection. */
  lemma InitializeIsGuarded(s: ProviderState, env: Env, c: Credentials, network: Network, projectId: string,
                            password: Option<string>, salt: seq<Base64.byte>, iv: seq<Base64.byte>)
    requires s.isInitialized || s.walletkit.Some?
    ensures InitializeStep(s, env, c, network, projectId, password, salt, iv) == s
  {
  }

  /** The parts of the state that only the vault write, `disconnect`, `pair` and the handlers change. */
  predicate SameStorage(a: ProviderState, b: ProviderState)
  {
    a.localStorage == b.localStorage && a.sessionStorage == b.sessionStorage &&
    a.hasStoredCredentials == b.hasStoredCredentials && a.network == b.network && a.sent == b.sent
  }

  /** The steps after the vault write leave both storages alone. */
  lemma CreateWalletsKeepsStorage(s: ProviderState, env: Env, c: Credentials, network: Network, projectId: string)
    ensures SameStorage(CreateWalletsStep(s, env, c, network, projectId), s)
  {
    if Complete(c) && env.evmWalletInit(c.ecdsaPrivateKey).Success? &&
       env.hip820Init(c.ed25519AccountId, c.ed25519PrivateKey, network).Success? {
      AdoptAndConnectKeepStorage(s, env, env.evmWalletInit(c.ecdsaPrivateKey).value,
        env.hip820Init(c.ed25519AccountId, c.ed25519PrivateKey, network).value, c,
        HederaAddress.GetEd25519EvmAddress(env.fetch, env.sdk, c.ed25519AccountId, network), projectId);
    }
  }

  lemma AdoptAndConnectKeepStorage(s: ProviderState, env: Env, evm: EvmAccount, hedera: HederaAccount, c: Credentials,
                                   address: HederaAddress.EvmAddress, projectId: string)
    ensures SameStorage(ConnectStep(AdoptStep(s, evm, hedera, c, address), env, projectId), s)
  {
  }

  /**
   * With a password, `initialize` stores the sealed wallet data and the password hash before it
   * checks the credentials, so even a failing initialize leaves a vault that the same password
   * opens.
   */
  lemma VaultPersistedBeforeValidation(s: ProviderState, env: Env, c: Credentials, network: Network, projectId: string,
                                       password: string, salt: seq<Base64.byte>, iv: seq<Base64.byte>)
    requires !s.isInitialized && s.walletkit.None?
    requires password != "" && |salt| == CredentialVault.SALT_LENGTH && |iv| == CredentialVault.IV_LENGTH
    requires CredentialVault.Sound(env.crypto) && StringifiesObjects(env)
    ensures var s1 := InitializeStep(s, env, c, network, projectId, Some(password), salt, iv);
      var text := env.stringify(WalletData(c, network, projectId));
      s1.localStorage == s.localStorage[VAULT_KEY := CredentialVault.Sealed(env.crypto, text, password, salt, iv)] &&
      s1.sessionStorage == s.sessionStorage[HASH_KEY := CredentialVault.HashPassword(env.crypto, password)] &&
      s1.hasStoredCredentials && HasVault(s1.localStorage) &&
      CredentialVault.Decrypt(env.crypto, s1.localStorage[VAULT_KEY], password) == Success(text)
  {
    var text := env.stringify(WalletData(c, network, projectId));
    var s0 := PersistVault(s.(network := network), env, WalletData(c, network, projectId), Some(password), salt, iv);
    CreateWalletsKeepsStorage(s0, env, c, network, projectId);
    CredentialVault.DecryptEncrypt(env.crypto, text, password, salt, iv);
  }

  /**
   * Missing credentials: the error modal names both accounts, and the provider stays
   * uninitialized, as locked as it was, without a connection and with its signers untouched.
   */
  lemma MissingCredentialsReported(s: ProviderState, env: Env, c: Credentials, network: Network, projectId: string,
                                   password: Option<string>, salt: seq<Base64.byte>, iv: seq<Base64.byte>)
    requires !s.isInitialized && s.walletkit.None? && !Complete(c)
    ensures var s1 := InitializeStep(s, env, c, network, projectId, password, salt, iv);
      s1.modal == Some(Modal(INIT_ERROR_TITLE, MISSING_CREDENTIALS, ErrorModal)) &&
      !s1.isInitialized && s1.isLocked == s.isLocked && s1.walletkit.None? &&
      s1.eip155Wallet == s.eip155Wallet && s1.hip820Wallet == s.hip820Wallet
  {
  }

  /**
   * `initialize` ends initialized exactly when the guard is open, all four credentials are given
   * and both signers and the connection are created; it then holds them, is unlocked, and shows
   * the Ed25519 account's EVM address by the mirror-then-SDK rule.
   */
  lemma InitializeOutcome(s: ProviderState, env: Env, c: Credentials, network: Network, projectId: string,
                          password: Option<string>, salt: seq<Base64.byte>, iv: seq<Base64.byte>)
    requires !s.isInitialized && s.walletkit.None?
    ensures var s1 := InitializeStep(s, env, c, network, projectId, password, salt, iv);
      s1.isInitialized <==>
        Complete(c) && env.evmWalletInit(c.ecdsaPrivateKey).Success? &&
        env.hip820Init(c.ed25519AccountId, c.ed25519PrivateKey, network).Success? &&
        env.createWalletKit(projectId).Success?
    ensures var s1 := InitializeStep(s, env, c, network, projectId, password, salt, iv);
      s1.isInitialized ==>
        !s1.isLocked && s1.network == network &&
        s1.eip155Wallet == Some(env.evmWalletInit(c.ecdsaPrivateKey).value) &&
        s1.hip820Wallet == Some(env.hip820Init(c.ed25519AccountId, c.ed25519PrivateKey, network).value) &&
        s1.walletkit == Some(env.createWalletKit(projectId).value) &&
        s1.ecdsaAccountId == c.ecdsaAccountId && s1.ed25519AccountId == c.ed25519AccountId &&
        s1.ed25519EvmAddress == HederaAddress.GetEd25519EvmAddress(env.fetch, env.sdk, c.ed25519AccountId, network).address
  {
  }

  /**
   * `unlock` returns false, changing nothing, exactly when there is no stored record, or
   * decrypting, parsing or reading the wallet data throws.
   */
  lemma UnlockFailsWithoutChange(s: ProviderState, env: Env, password: string)
    ensures var (s1, ok) := UnlockStep(s, env, password);
      !ok ==> s1 == s
    ensures UnlockStep(s, env, password).1 <==>
      HasVault(s.localStorage) &&
      var decrypted := CredentialVault.Decrypt(env.crypto, s.localStorage[VAULT_KEY], password);
      decrypted.Success? && env.parse(decrypted.value).Success? &&
      ReadWalletData(env.parse(decrypted.value).value).Success?
  {
  }

  /**
   * A successful `unlock` calls `initialize` without a password, so the stored record is not
   * rewritten; it writes the password hash and unlocks.
   */
  lemma UnlockKeepsVault(s: ProviderState, env: Env, password: string)
    ensures UnlockStep(s, env, password).0.localStorage == s.localStorage
    ensures var (s1, ok) := UnlockStep(s, env, password);
      ok ==> !s1.isLocked && HASH_KEY in s1.sessionStorage &&
             s1.sessionStorage[HASH_KEY] == CredentialVault.HashPassword(env.crypto, password)
  {
    var (s1, ok) := UnlockStep(s, env, password);
    if ok {
      var text := CredentialVault.Decrypt(env.crypto, s.localStorage[VAULT_KEY], password).value;
      var data := ReadWalletData(env.parse(text).value).value;
      CreateWalletsKeepsStorage(s.(network := data.network), env, data.credentials, data.network, data.projectId);
    }
  }

  /**
   * `initialize` catches its own failures, so `unlock` reports success and unlocks even when the
   * stored credentials are incomplete: the provider is then unlocked but not initialized.
   */
  lemma UnlockCanLeaveUninitialized(s: ProviderState, env: Env, password: string)
    requires !s.isInitialized && s.walletkit.None? && HasVault(s.localStorage)
    requires CredentialVault.Decrypt(env.crypto, s.localStorage[VAULT_KEY], password).Success?
    requires var text := CredentialVault.Decrypt(env.crypto, s.localStorage[VAULT_KEY], password).value;
      env.parse(text).Success? && ReadWalletData(env.parse(text).value).Success? &&
      !Complete(ReadWalletData(env.parse(text).value).value.credentials)
    ensures var (s1, ok) := UnlockStep(s, env, password);
      ok && !s1.isLocked && !s1.isInitialized && s1.modal == Some(Modal(INIT_ERROR_TITLE, MISSING_CREDENTIALS, ErrorModal))
  {
  }

  /**
   * `lock` drops both signers, the connection and the session's password hash, and ends
   * uninitialized and locked; the vault in local storage is untouched.
   */
  lemma LockClears(s: ProviderState)
    ensures var s1 := LockStep(s);
      s1.eip155Wallet.None? && s1.hip820Wallet.None? && s1.walletkit.None? &&
      !s1.isInitialized && s1.isLocked && HASH_KEY !in s1.sessionStorage &&
      s1.localStorage == s.localStorage && s1.hasStoredCredentials == s.hasStoredCredentials && s1.sent == s.sent
  {
  }

  /** Unlocking a vault that holds stored wallet data re-runs `initialize` with that data, without a password. */
  lemma UnlockOpensVault(s: ProviderState, env: Env, password: string, data: WalletData)
    requires JsonRoundTrip(env) && HasVault(s.localStorage)
    requires CredentialVault.Decrypt(env.crypto, s.localStorage[VAULT_KEY], password) == Success(env.stringify(data))
    ensures var s1 := InitializeStep(s, env, data.credentials, data.network, data.projectId, None, [], []);
      UnlockStep(s, env, password) ==
        (s1.(sessionStorage := s1.sessionStorage[HASH_KEY := CredentialVault.HashPassword(env.crypto, password)],
             isLocked := false), true)
  {
    assert env.parse(env.stringify(data)) == Success(WalletDataJson(data));
    ReadWalletDataJson(data);
  }

  /** The stored wallet data is complete and the signers and the connection can be created from it. */
  predicate Ready(env: Env, w: WalletData)
  {
    Complete(w.credentials) && env.evmWalletInit(w.credentials.ecdsaPrivateKey).Success? &&
    env.hip820Init(w.credentials.ed25519AccountId, w.credentials.ed25519PrivateKey, w.network).Success? &&
    env.createWalletKit(w.projectId).Success?
  }

  /** An unlocked, initialized provider holding exactly what `initialize` creates from the wallet data. */
  predicate InitializedWith(s: ProviderState, env: Env, w: WalletData)
  {
    Ready(env, w) && s.isInitialized && !s.isLocked && s.network == w.network &&
    s.eip155Wallet == Some(env.evmWalletInit(w.credentials.ecdsaPrivateKey).value) &&
    s.hip820Wallet == Some(env.hip820Init(w.credentials.ed25519AccountId, w.credentials.ed25519PrivateKey, w.network).value) &&
    s.walletkit == Some(env.createWalletKit(w.projectId).value) &&
    s.ecdsaAccountId == w.credentials.ecdsaAccountId && s.ed25519AccountId == w.credentials.ed25519AccountId &&
    s.ed25519EvmAddress == HederaAddress.GetEd25519EvmAddress(env.fetch, env.sdk, w.credentials.ed25519AccountId, w.network).address
  }

  /** `initialize` succeeds exactly on ready data, and then holds what it created from that data. */
  lemma InitializeEstablishes(s: ProviderState, env: Env, c: Credentials, network: Network, projectId: string,
                              password: Option<string>, salt: seq<Base64.byte>, iv: seq<Base64.byte>)
    requires !s.isInitialized && s.walletkit.None?
    ensures var s1 := InitializeStep(s, env, c, network, projectId, password, salt, iv);
      (s1.isInitialized <==> Ready(env, WalletData(c, network, projectId))) &&
      (s1.isInitialized ==> InitializedWith(s1, env, WalletData(c, network, projectId)))
  {
    InitializeOutcome(s, env, c, network, projectId, password, salt, iv);
  }

  /** Two environments that seal, serialise and parse alike; the signers, the connection and the mirror may answer differently. */
  ghost predicate SameCodecs(env: Env, env2: Env)
  {
    env2.crypto == env.crypto && env2.stringify == env.stringify && env2.parse == env.parse
  }

  /**
   * Locking a provider initialized from the vault's data and unlocking it with the password, in an
   * environment `env2` whose signers, WalletKit and mirror node are asked afresh: `unlock` returns
   * true, the network, account ids and both storages are as before, and the provider is initialized
   * exactly when `env2` can create the signers and the connection, then holding what `env2` created.
   * Only when `env2` answers as before are they the same signers, connection and EVM address.
   */
  lemma UnlockRestores(s1: ProviderState, env: Env, env2: Env, password: string, data: WalletData)
    requires SameCodecs(env, env2) && JsonRoundTrip(env) && InitializedWith(s1, env, data)
    requires HasVault(s1.localStorage)
    requires CredentialVault.Decrypt(env.crypto, s1.localStorage[VAULT_KEY], password) == Success(env.stringify(data))
    requires HASH_KEY in s1.sessionStorage && s1.sessionStorage[HASH_KEY] == CredentialVault.HashPassword(env.crypto, password)
    ensures var (s2, ok) := UnlockStep(LockStep(s1), env2, password);
      ok && !s2.isLocked && s2.network == s1.network &&
      s2.ecdsaAccountId == s1.ecdsaAccountId && s2.ed25519AccountId == s1.ed25519AccountId &&
      s2.localStorage == s1.localStorage && s2.sessionStorage == s1.sessionStorage &&
      (s2.isInitialized <==> Ready(env2, data)) && (s2.isInitialized ==> InitializedWith(s2, env2, data))
    ensures var (s2, ok) := UnlockStep(LockStep(s1), env2, password);
      env2 == env ==>
        s2.isInitialized && s2.eip155Wallet == s1.eip155Wallet && s2.hip820Wallet == s1.hip820Wallet &&
        s2.walletkit == s1.walletkit && s2.ed25519EvmAddress == s1.ed25519EvmAddress
  {
    var locked := LockStep(s1);
    assert JsonRoundTrip(env2) by {
      forall w ensures env2.parse(env2.stringify(w)) == Success(WalletDataJson(w)) {
        assert env.parse(env.stringify(w)) == Success(WalletDataJson(w));
      }
    }
    UnlockOpensVault(locked, env2, password, data);
    ReinitializeFromData(locked, env2, data);
    var s3 := InitializeStep(locked, env2, data.credentials, data.network, data.projectId, None, [], []);
    assert s3.sessionStorage[HASH_KEY := CredentialVault.HashPassword(env2.crypto, password)] == s1.sessionStorage;
  }

  lemma ReinitializeFromData(s: ProviderState, env: Env, data: WalletData)
    requires !s.isInitialized && s.walletkit.None?
    requires s.ecdsaAccountId == data.credentials.ecdsaAccountId && s.ed25519AccountId == data.credentials.ed25519AccountId
    ensures var s1 := InitializeStep(s, env, data.credentials, data.network, data.projectId, None, [], []);
      (s1.isInitialized <==> Ready(env, data)) && (s1.isInitialized ==> InitializedWith(s1, env, data)) &&
      s1.network == data.network &&
      s1.ecdsaAccountId == data.credentials.ecdsaAccountId && s1.ed25519AccountId == data.credentials.ed25519AccountId &&
      s1.localStorage == s.localStorage && s1.sessionStorage == s.sessionStorage
  {
    InitializeEstablishes(s, env, data.credentials, data.network, data.projectId, None, [], []);
    CreateWalletsKeepsStorage(s.(network := data.network), env, data.credentials, data.network, data.projectId);
    CreateWalletsKeepsIds(s.(network := data.network), env, data.credentials, data.network, data.projectId);
  }

  /** The account ids end as the credentials' whether or not the signers and the connection are created. */
  lemma CreateWalletsKeepsIds(s: ProviderState, env: Env, c: Credentials, network: Network, projectId: string)
    requires s.ecdsaAccountId == c.ecdsaAccountId && s.ed25519AccountId == c.ed25519AccountId
    ensures var s1 := CreateWalletsStep(s, env, c, network, projectId);
      s1.ecdsaAccountId == c.ecdsaAccountId && s1.ed25519AccountId == c.ed25519AccountId
  {
    if Complete(c) && env.evmWalletInit(c.ecdsaPrivateKey).Success? &&
       env.hip820Init(c.ed25519AccountId, c.ed25519PrivateKey, network).Success? {
      AdoptAndConnectSetIds(s, env, env.evmWalletInit(c.ecdsaPrivateKey).value,
        env.hip820Init(c.ed25519AccountId, c.ed25519PrivateKey, network).value, c,
        HederaAddress.GetEd25519EvmAddress(env.fetch, env.sdk, c.ed25519AccountId, network), projectId);
    }
  }

  lemma AdoptAndConnectSetIds(s: ProviderState, env: Env, evm: EvmAccount, hedera: HederaAccount, c: Credentials,
                              address: HederaAddress.EvmAddress, projectId: string)
    ensures var s1 := ConnectStep(AdoptStep(s, evm, hedera, c, address), env, projectId);
      s1.ecdsaAccountId == c.ecdsaAccountId && s1.ed25519AccountId == c.ed25519AccountId
  {
  }

  /**
   * Initializing with a password, locking, and unlocking with the same password in a later
   * environment `env2`: unlock returns true with the network, account ids and storages as before, and
   * the provider is initialized exactly when `env2` can create the signers and the connection. When
   * `env2` answers as `env` did, the same signers, connection and EVM address come back.
   */
  lemma LockThenUnlockRestores(s: ProviderState, env: Env, env2: Env, c: Credentials, network: Network, projectId: string,
                               password: string, salt: seq<Base64.byte>, iv: seq<Base64.byte>)
    requires CredentialVault.Sound(env.crypto) && JsonRoundTrip(env) && StringifiesObjects(env) && SameCodecs(env, env2)
    requires !s.isInitialized && s.walletkit.None?
    requires password != "" && |salt| == CredentialVault.SALT_LENGTH && |iv| == CredentialVault.IV_LENGTH
    requires InitializeStep(s, env, c, network, projectId, Some(password), salt, iv).isInitialized
    ensures var s1 := InitializeStep(s, env, c, network, projectId, Some(password), salt, iv);
      var (s2, ok) := UnlockStep(LockStep(s1), env2, password);
      ok && !s2.isLocked && s2.network == s1.network &&
      s2.ecdsaAccountId == s1.ecdsaAccountId && s2.ed25519AccountId == s1.ed25519AccountId &&
      s2.localStorage == s1.localStorage && s2.sessionStorage == s1.sessionStorage &&
      (s2.isInitialized <==> Ready(env2, WalletData(c, network, projectId))) &&
      (s2.isInitialized ==> InitializedWith(s2, env2, WalletData(c, network, projectId)))
    ensures var s1 := InitializeStep(s, env, c, network, projectId, Some(password), salt, iv);
      var (s2, ok) := UnlockStep(LockStep(s1), env2, password);
      env2 == env ==>
        s2.isInitialized && s2.eip155Wallet == s1.eip155Wallet && s2.hip820Wallet == s1.hip820Wallet &&
        s2.walletkit == s1.walletkit && s2.ed25519EvmAddress == s1.ed25519EvmAddress
  {
    var data := WalletData(c, network, projectId);
    var s1 := InitializeStep(s, env, c, network, projectId, Some(password), salt, iv);
    VaultPersistedBeforeValidation(s, env, c, network, projectId, password, salt, iv);
    InitializeEstablishes(s, env, c, network, projectId, Some(password), salt, iv);
    UnlockRestores(s1, env, env2, password, data);
  }

  /**
   * `disconnect` throws, changing nothing, without a connection; otherwise it disconnects every
   * active session and then every pairing with USER_DISCONNECTED, and ends uninitialized, locked
   * and without a connection.
   */
  lemma DisconnectOutcome(s: ProviderState)
    ensures s.walletkit.None? ==> DisconnectStep(s) == (s, Some(ErrorObject(WALLETKIT_MISSING)))
    ensures s.walletkit.Some? ==>
      var (s1, error) := DisconnectStep(s);
      var kit := s.walletkit.value;
      error.None? && !s1.isInitialized && s1.isLocked && s1.walletkit.None? &&
      |s1.sent| == |s.sent| + |kit.sessions| + |kit.pairings| && s1.sent[..|s.sent|] == s.sent &&
      (forall i :: 0 <= i < |kit.sessions| ==>
         s1.sent[|s.sent| + i] == Sessions.DisconnectSession(kit.sessions[i], UserDisconnected)) &&
      (forall i :: 0 <= i < |kit.pairings| ==>
         s1.sent[|s.sent| + |kit.sessions| + i] == Sessions.DisconnectSession(kit.pairings[i], UserDisconnected)) &&
      s1.localStorage == s.localStorage && s1.eip155Wallet == s.eip155Wallet && s1.hip820Wallet == s.hip820Wallet
  {
  }

  /** `pair` throws without a connection, and otherwise asks WalletKit to pair with the URI. */
  lemma PairOutcome(s: ProviderState, uri: string)
    ensures s.walletkit.None? ==> PairStep(s, uri) == (s, Some(ErrorObject(WALLETKIT_MISSING)))
    ensures s.walletkit.Some? ==> PairStep(s, uri) == (s.(sent := s.sent + [Sessions.PairWith(uri)]), None)
  {
  }

  /**
   * A proposal is answered once: rejected with USER_REJECTED_METHODS, or approved with what
   * `buildApprovedNamespaces` makes of the provider's namespaces for the active network.
   */
  lemma ProposalOutcome(s: ProviderState, env: Env, proposal: Sessions.Proposal, confirm: bool)
    requires s.walletkit.Some? && s.eip155Wallet.Some? && s.hip820Wallet.Some?
    ensures var s1 := ProposalStep(s, env, proposal, confirm);
      var supported := Sessions.NewerNamespaces(s.network, env.evmMethods, s.eip155Wallet.value.address,
                                                s.hip820Wallet.value.accountId);
      var built := env.buildApprovedNamespaces(proposal.params, supported);
      (!confirm ==> s1.sent == s.sent + [Sessions.RejectSession(proposal.id, UserRejectedMethods)]) &&
      (confirm && built.Success? ==> s1.sent == s.sent + [Sessions.ApproveSession(proposal.id, built.value)]) &&
      (confirm && built.Failure? ==> s1.sent == s.sent && s1.modal.Some? && s1.modal.value.title == SESSION_ERROR_TITLE)
  {
  }

  /**
   * A request without the connection or a signer shows the Request Error modal and sends nothing.
   * Otherwise the modal closes and the routed answer is sent on the request's topic, with the
   * request's id; a decline always answers USER_REJECTED, and only an approve that throws sends nothing.
   */
  lemma RequestOutcome(s: ProviderState, env: Env, event: RequestEvent, confirm: bool)
    ensures var s1 := RequestStep(s, env, event, confirm);
      s.walletkit.None? || s.eip155Wallet.None? || s.hip820Wallet.None? ==>
        s1.sent == s.sent && s1.modal.Some? && s1.modal.value.title == REQUEST_ERROR_TITLE &&
        s1.modal.value.kind == ErrorModal
    ensures var s1 := RequestStep(s, env, event, confirm);
      s.walletkit.Some? && s.eip155Wallet.Some? && s.hip820Wallet.Some? ==>
        var r := Sessions.RequestResponse(env.signers(s.eip155Wallet.value, s.hip820Wallet.value), env.evmMethods, event, confirm);
        s1.modal.None? &&
        (r.Success? ==> s1.sent == s.sent + [Sessions.RespondSessionRequest(event.topic, r.value)] && r.value.Id() == event.id) &&
        (r.Failure? ==> s1.sent == s.sent) &&
        (!confirm ==> s1.sent == s.sent + [Sessions.RespondSessionRequest(event.topic, RpcError(event.id, SdkErrorMessage(UserRejected)))])
  {
    if s.walletkit.Some? && s.eip155Wallet.Some? && s.hip820Wallet.Some? {
      Sessions.Routing(env.signers(s.eip155Wallet.value, s.hip820Wallet.value), env.evmMethods, event, confirm);
    }
  }

  /** Without the connection or a signer, `onSessionProposal` throws before prompting: nothing changes. */
  lemma ProposalWithoutHandles(s: ProviderState, env: Env, proposal: Sessions.Proposal, confirm: bool)
    requires s.walletkit.None? || s.eip155Wallet.None? || s.hip820Wallet.None?
    ensures ProposalStep(s, env, proposal, confirm) == s
  {
  }

  /** `initialize` keeps an initialized provider's connection and signers in place. */
  lemma InitializeKeepsConsistent(s: ProviderState, env: Env, c: Credentials, network: Network, projectId: string,
                                  password: Option<string>, salt: seq<Base64.byte>, iv: seq<Base64.byte>)
    requires Consistent(s)
    ensures Consistent(InitializeStep(s, env, c, network, projectId, password, salt, iv))
  {
    if !s.isInitialized && s.walletkit.None? {
      InitializeOutcome(s, env, c, network, projectId, password, salt, iv);
    }
  }

  /** So does `unlock`. */
  lemma UnlockKeepsConsistent(s: ProviderState, env: Env, password: string)
    requires Consistent(s)
    ensures Consistent(UnlockStep(s, env, password).0)
  {
    if UnlockStep(s, env, password).1 {
      var text := CredentialVault.Decrypt(env.crypto, s.localStorage[VAULT_KEY], password).value;
      var data := ReadWalletData(env.parse(text).value).value;
      InitializeKeepsConsistent(s, env, data.credentials, data.network, data.projectId, None, [], []);
    }
  }

  /** And so do `lock`, `disconnect` and `pair`. */
  lemma LifecycleKeepsConsistent(s: ProviderState, uri: string)
    requires Consistent(s)
    ensures Consistent(LockStep(s))
    ensures Consistent(DisconnectStep(s).0)
    ensures Consistent(PairStep(s, uri).0)
  {
  }

  /** The proposal handler changes only the modal and what is sent. */
  lemma ProposalKeepsConsistent(s: ProviderState, env: Env, proposal: Sessions.Proposal, confirm: bool)
    requires Consistent(s)
    ensures Consistent(ProposalStep(s, env, proposal, confirm))
  {
  }

  /** So does the request handler. */
  lemma RequestKeepsConsistent(s: ProviderState, env: Env, event: RequestEvent, confirm: bool)
    requires Consistent(s)
    ensures Consistent(RequestStep(s, env, event, confirm))
  {
    if s.walletkit.Some? && s.eip155Wallet.Some? && s.hip820Wallet.Some? {
      AnswerKeepsConsistent(s, event.topic,
        Sessions.RequestResponse(env.signers(s.eip155Wallet.value, s.hip820Wallet.value), env.evmMethods, event, confirm));
    }
  }

  lemma AnswerKeepsConsistent(s: ProviderState, topic: string, r: Result<Response, Sessions.ApproveFailure>)
    requires Consistent(s)
    ensures Consistent(Answer(s, topic, r))
  {
  }

  // ------------------------------------------------------------------- the class

  class WalletProvider {
    var isInitialized: bool
    var isLocked: bool
    var hasStoredCredentials: bool
    var eip155Wallet: Option<EvmAccount>
    var hip820Wallet: Option<HederaAccount>
    var walletkit: Option<Sessions.Connection>
    var network: Network
    var ecdsaAccountId: string
    var ed25519AccountId: string
    var ed25519EvmAddress: string
    var ed25519EvmAddressSource: Option<HederaAddress.Source>
    var modal: Option<Modal>
    var localStorage: map<string, string>
    var sessionStorage: map<string, string>
    var sent: seq<Sessions.ProtocolCall>

    function State(): ProviderState
      reads this
    {
      ProviderState(isInitialized, isLocked, hasStoredCredentials, eip155Wallet, hip820Wallet, walletkit,
        network, ecdsaAccountId, ed25519AccountId, ed25519EvmAddress, ed25519EvmAddressSource, modal,
        localStorage, sessionStorage, sent)
    }

    /** Mounting the provider over the browser's storages. */
    constructor(localStorage: map<string, string>, sessionStorage: map<string, string>)
      ensures State() == Mount(localStorage, sessionStorage)
    {
      isInitialized := false;
      isLocked := true;
      hasStoredCredentials := VAULT_KEY in localStorage && localStorage[VAULT_KEY] != "";
      eip155Wallet := None;
      hip820Wallet := None;
      walletkit := None;
      network := Testnet;
      ecdsaAccountId := "";
      ed25519AccountId := "";
      ed25519EvmAddress := "";
      ed25519EvmAddressSource := None;
      modal := None;
      this.localStorage := localStorage;
      this.sessionStorage := sessionStorage;
      sent := [];
    }

    /** `initialize`; `salt` and `iv` are the random draws `CryptoUtils.encrypt` makes. */
    method Initialize(env: Env, c: Credentials, network: Network, projectId: string, password: Option<string>,
                      salt: seq<Base64.byte>, iv: seq<Base64.byte>)
      requires PasswordGiven(password) ==> |salt| == CredentialVault.SALT_LENGTH && |iv| == CredentialVault.IV_LENGTH
      modifies this
      ensures State() == InitializeStep(old(State()), env, c, network, projectId, password, salt, iv)
    {
      if isInitialized || walletkit.Some? {
        return;
      }
      this.network := network;
      if PasswordGiven(password) {
        var record := CredentialVault.Encrypt(env.crypto, env.stringify(WalletData(c, network, projectId)), password.value, salt, iv);
        localStorage := localStorage[VAULT_KEY := record];
        sessionStorage := sessionStorage[HASH_KEY := CredentialVault.HashPassword(env.crypto, password.value)];
        hasStoredCredentials := true;
      }
      CreateWallets(env, c, network, projectId);
    }

    method CreateWallets(env: Env, c: Credentials, network: Network, projectId: string)
      modifies this
      ensures State() == CreateWalletsStep(old(State()), env, c, network, projectId)
    {
      if !Complete(c) {
        modal := InitErrorModal(MISSING_CREDENTIALS);
        return;
      }
      var evm := env.evmWalletInit(c.ecdsaPrivateKey);
      if evm.Failure? {
        modal := InitErrorModal(ErrorText(evm.error, INIT_ERROR_FALLBACK));
        return;
      }
      var hedera := env.hip820Init(c.ed25519AccountId, c.ed25519PrivateKey, network);
      if hedera.Failure? {
        modal := InitErrorModal(ErrorText(hedera.error, INIT_ERROR_FALLBACK));
        return;
      }
      var address := HederaAddress.GetEd25519EvmAddress(env.fetch, env.sdk, c.ed25519AccountId, network);
      Adopt(evm.value, hedera.value, c, address);
      Connect(env, projectId);
    }

    method Adopt(evm: EvmAccount, hedera: HederaAccount, c: Credentials, address: HederaAddress.EvmAddress)
      modifies this
      ensures State() == AdoptStep(old(State()), evm, hedera, c, address)
    {
      ghost var s0 := State();
      eip155Wallet, hip820Wallet, ecdsaAccountId, ed25519AccountId, ed25519EvmAddress, ed25519EvmAddressSource :=
        Some(evm), Some(hedera), c.ecdsaAccountId, c.ed25519AccountId, address.address, Some(address.source);
      assert State() == AdoptStep(s0, evm, hedera, c, address);
    }

    method Connect(env: Env, projectId: string)
      modifies this
      ensures State() == ConnectStep(old(State()), env, projectId)
    {
      var kit := env.createWalletKit(projectId);
      if kit.Failure? {
        modal := InitErrorModal(ErrorText(kit.error, INIT_ERROR_FALLBACK));
        return;
      }
      walletkit := Some(kit.value);
      isInitialized := true;
      isLocked := false;
    }

    /** `unlock(password)`. */
    method Unlock(env: Env, password: string) returns (ok: bool)
      modifies this
      ensures (State(), ok) == UnlockStep(old(State()), env, password)
    {
      if !(VAULT_KEY in localStorage && localStorage[VAULT_KEY] != "") {
        return false;
      }
      var decrypted := CredentialVault.Decrypt(env.crypto, localStorage[VAULT_KEY], password);
      if decrypted.Failure? {
        return false;
      }
      var json := env.parse(decrypted.value);
      if json.Failure? {
        return false;
      }
      var data := ReadWalletData(json.value);
      if data.Failure? {
        return false;
      }
      Initialize(env, data.value.credentials, data.value.network, data.value.projectId, None, [], []);
      sessionStorage := sessionStorage[HASH_KEY := CredentialVault.HashPassword(env.crypto, password)];
      isLocked := false;
      return true;
    }

    /** `lock()`. */
    method Lock()
      modifies this
      ensures State() == LockStep(old(State()))
    {
      eip155Wallet, hip820Wallet := None, None;
      if walletkit.Some? {
        walletkit := None;
      }
      isInitialized, isLocked, sessionStorage := false, true, sessionStorage - {HASH_KEY};
    }

    /** `disconnect()`: every active session, then every pairing, is disconnected. */
    method Disconnect() returns (error: Option<Thrown>)
      modifies this
      ensures (State(), error) == DisconnectStep(old(State()))
    {
      if walletkit.None? {
        return Some(ErrorObject(WALLETKIT_MISSING));
      }
      var kit := walletkit.value;
      DisconnectTopics(kit.sessions);
      DisconnectTopics(kit.pairings);
      isInitialized, isLocked, walletkit := false, true, None;
      return None;
    }

    /** One `disconnectSession` call with USER_DISCONNECTED per topic, in order. */
    method DisconnectTopics(topics: seq<string>)
      modifies this
      ensures State() == old(State()).(sent := old(sent) + Sessions.DisconnectCalls(topics))
    {
      ghost var s0 := State();
      var i := 0;
      while i < |topics|
        invariant 0 <= i <= |topics|
        invariant State() == s0.(sent := sent)
        invariant sent == s0.sent + Sessions.DisconnectCalls(topics[..i])
      {
        sent := sent + [Sessions.DisconnectSession(topics[i], UserDisconnected)];
        Sessions.DisconnectCallsStep(topics, i);
        i := i + 1;
      }
      assert topics[..i] == topics;
    }

    /** `pair(uri)`. */
    method Pair(uri: string) returns (error: Option<Thrown>)
      modifies this
      ensures (State(), error) == PairStep(old(State()), uri)
    {
      if walletkit.None? {
        return Some(ErrorObject(WALLETKIT_MISSING));
      }
      sent := sent + [Sessions.PairWith(uri)];
      return None;
    }

    /** A `session_proposal` event and the operator's answer to its modal. */
    method OnSessionProposal(env: Env, proposal: Sessions.Proposal, confirm: bool)
      modifies this
      ensures State() == ProposalStep(old(State()), env, proposal, confirm)
    {
      if walletkit.None? || eip155Wallet.None? || hip820Wallet.None? {
        return;
      }
      modal := None;
      if !confirm {
        sent := sent + [Sessions.RejectSession(proposal.id, UserRejectedMethods)];
        return;
      }
      var supported := Sessions.NewerNamespaces(network, env.evmMethods, eip155Wallet.value.address,
                                                hip820Wallet.value.accountId);
      var approved := env.buildApprovedNamespaces(proposal.params, supported);
      if approved.Failure? {
        modal := Some(Modal(SESSION_ERROR_TITLE, ErrorText(approved.error, SESSION_ERROR_FALLBACK), ErrorModal));
        return;
      }
      sent := sent + [Sessions.ApproveSession(proposal.id, approved.value)];
    }

    /** A `session_request` event and the operator's answer to its modal. */
    method OnSessionRequest(env: Env, event: RequestEvent, confirm: bool)
      modifies this
      ensures State() == RequestStep(old(State()), env, event, confirm)
    {
      if walletkit.None? {
        modal := Some(Modal(REQUEST_ERROR_TITLE, WALLETKIT_MISSING, ErrorModal));
        return;
      }
      if eip155Wallet.None? {
        modal := Some(Modal(REQUEST_ERROR_TITLE, EVM_WALLET_MISSING, ErrorModal));
        return;
      }
      if hip820Wallet.None? {
        modal := Some(Modal(REQUEST_ERROR_TITLE, HEDERA_WALLET_MISSING, ErrorModal));
        return;
      }
      modal := None;
      var response := Sessions.RequestResponse(env.signers(eip155Wallet.value, hip820Wallet.value), env.evmMethods, event, confirm);
      if response.Success? {
        sent := sent + [Sessions.RespondSessionRequest(event.topic, response.value)];
      }
    }
  }
}
