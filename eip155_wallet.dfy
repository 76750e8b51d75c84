/**
 * The EVM signer of src/lib/eip155-wallet.ts: the `approveSessionRequest` switch over the
 * eight EIP-155 methods, which turns every outcome of a supported method into a JSON-RPC
 * result or error carrying the request id, and `rejectSessionRequest`. The ethers wallet and
 * the JSON-RPC provider are inputs of the model.
 */
module Eip155Wallet {
  import opened Wrappers
  import opened Rpc
  import Misc
  import Eip155Data

  /** The ethers calls the switch makes; each may throw. */
  datatype EvmPorts = EvmPorts(
    ethers: Misc.Ethers,
    parse: Misc.JsonParse,
    /** `wallet.signMessage(message)` */
    signMessage: JsValue -> Result<string, Thrown>,
    /** `wallet.signTypedData(domain, types, data)` */
    signTypedData: (JsValue, JsValue, JsValue) -> Result<string, Thrown>,
    /** `wallet.connect(new JsonRpcProvider(rpc)).populateTransaction(tx)` */
    populateTransaction: (string, JsValue) -> Result<JsValue, Thrown>,
    /** `wallet.signTransaction(Transaction.from(prepared))` */
    signTransaction: JsValue -> Result<string, Thrown>,
    /** `wallet.connect(new JsonRpcProvider(rpc)).sendTransaction(tx)` */
    sendTransaction: (string, JsValue) -> Result<JsValue, Thrown>,
    /** `new JsonRpcProvider(rpc).broadcastTransaction(raw)` */
    broadcastTransaction: (string, JsValue) -> Result<JsValue, Thrown>,
    /** `txResponse.wait()` on a response object */
    wait: JsValue -> Result<JsValue, Thrown>)

  /** The TypeError of `delete x.p` when `x` is `undefined` or `null`. */
  const DELETE_OF_NOTHING := "Cannot convert undefined or null to object"
  /** The TypeError of calling a property that is not a function. */
  const WAIT_NOT_A_FUNCTION := "txResponse.wait is not a function"

  const SIGN_MESSAGE_FALLBACK := "Failed to sign message"
  const SIGN_TYPED_DATA_FALLBACK := "Failed to sign typed data"
  const SEND_TRANSACTION_FALLBACK := "Failed to send transaction"
  const SIGN_TRANSACTION_FALLBACK := "Failed to sign transaction"

  // ------------------------------------------------------ JavaScript steps

  /** `delete v[name]`: throws on `undefined` and `null`, removes an object's own field, else does nothing. */
  function DeleteProperty(v: JsValue, name: string): (r: Result<JsValue, Thrown>)
    ensures r.Failure? <==> v.Undefined? || v.Null?
    ensures v.Object? ==> r == Success(Object(v.fields - {name})) && name !in r.value.fields
    ensures r.Success? && !v.Object? ==> r.value == v
  {
    match v
    case Undefined => Failure(ErrorObject(DELETE_OF_NOTHING))
    case Null => Failure(ErrorObject(DELETE_OF_NOTHING))
    case Object(fields) => Success(Object(fields - {name}))
    case _ => Success(v)
  }

  /** `v[0]`. */
  function First(v: JsValue): (r: Result<JsValue, Thrown>)
    ensures r.Failure? <==> v.Undefined? || v.Null?
    ensures v.Array? && |v.items| > 0 ==> r == Success(v.items[0])
  {
    match v
    case Undefined => Failure(ErrorObject(PROPERTY_OF_NOTHING))
    case Null => Failure(ErrorObject(PROPERTY_OF_NOTHING))
    case Array(items) => Success(if |items| > 0 then items[0] else Undefined)
    case Str(s) => Success(if |s| > 0 then Str([s[0]]) else Undefined)
    case Object(fields) => Success(if "0" in fields then fields["0"] else Undefined)
    case _ => Success(Undefined)
  }

  /** `EIP155_CHAINS[chainId].rpc`: reading `rpc` of `undefined` throws for a chain not in the table. */
  function RpcUrl(chainId: string): (r: Result<string, Thrown>)
    ensures r.Success? <==> Eip155Data.Lookup(Eip155Data.CHAINS, chainId).Some?
    ensures r.Success? ==> r.value == Eip155Data.Lookup(Eip155Data.CHAINS, chainId).value.rpc
    ensures r.Failure? ==> r.error == ErrorObject(PROPERTY_OF_NOTHING)
  {
    match Eip155Data.Lookup(Eip155Data.CHAINS, chainId)
    case None => Failure(ErrorObject(PROPERTY_OF_NOTHING))
    case Some(chain) => Success(chain.rpc)
  }

  /** The `catch` of every supported branch: an `Error`'s message, otherwise the branch's fallback. */
  function Respond(id: int, attempt: Result<JsValue, Thrown>, fallback: string): (r: Response)
    ensures r.Id() == id
    ensures attempt.Success? ==> r == RpcResult(id, attempt.value)
    ensures attempt.Failure? && attempt.error.ErrorObject? ==> r == RpcError(id, attempt.error.message)
    ensures attempt.Failure? && attempt.error.NonError? ==> r == RpcError(id, fallback)
  {
    match attempt
    case Success(value) => RpcResult(id, value)
    case Failure(ErrorObject(message)) => RpcError(id, message)
    case Failure(NonError(_)) => RpcError(id, fallback)
  }

  // ------------------------------------------------------------- branches

  /** `personal_sign` / `eth_sign`: the message param, signed. */
  function SignBranch(p: EvmPorts, params: JsValue): (r: Result<JsValue, Thrown>)
  {
    match Misc.GetSignParamsMessage(p.ethers, params)
    case Failure(t) => Failure(t)
    case Success(message) =>
      match p.signMessage(message)
      case Success(signature) => Success(Str(signature))
      case Failure(t) => Failure(t)
  }

  /** `eth_signTypedData` and its `_v3` / `_v4` aliases: `EIP712Domain` is dropped from `types` first. */
  function TypedDataBranch(p: EvmPorts, params: JsValue): (r: Result<JsValue, Thrown>)
  {
    match Misc.GetSignTypedDataParamsData(p.ethers, p.parse, params)
    case Failure(t) => Failure(t)
    case Success(data) =>
      match Get(data, "domain")
      case Failure(t) => Failure(t)
      case Success(domain) =>
        var types := Get(data, "types").value;
        var message := Get(data, "message").value;
        match DeleteProperty(types, "EIP712Domain")
        case Failure(t) => Failure(t)
        case Success(strippedTypes) =>
          match p.signTypedData(domain, strippedTypes, message)
          case Success(signature) => Success(Str(signature))
          case Failure(t) => Failure(t)
  }

  /** `txResponse.wait()`: a string, `undefined` or any non-object has no `wait` to call. */
  function Wait(p: EvmPorts, txResponse: JsValue): (r: Result<JsValue, Thrown>)
    ensures !txResponse.Object? ==> r.Failure?
  {
    match txResponse
    case Object(_) => p.wait(txResponse)
    case Undefined => Failure(ErrorObject(PROPERTY_OF_NOTHING))
    case Null => Failure(ErrorObject(PROPERTY_OF_NOTHING))
    case _ => Failure(ErrorObject(WAIT_NOT_A_FUNCTION))
  }

  /** `typeof txResponse === "string" ? txResponse : txResponse?.hash` */
  function TxHash(txResponse: JsValue): (r: JsValue)
  {
    match txResponse
    case Str(_) => txResponse
    case Undefined => Undefined
    case Null => Undefined
    case _ => Get(txResponse, "hash").value
  }

  /** `eth_sendTransaction` / `eth_sendRawTransaction`: look up the RPC URL, send, wait, return the hash. */
  function SendBranch(p: EvmPorts, raw: bool, chainId: string, params: JsValue): (r: Result<JsValue, Thrown>)
  {
    match RpcUrl(chainId)
    case Failure(t) => Failure(t)
    case Success(rpc) =>
      match First(params)
      case Failure(t) => Failure(t)
      case Success(tx) =>
        var sent := if raw then p.broadcastTransaction(rpc, tx) else p.sendTransaction(rpc, tx);
        match sent
        case Failure(t) => Failure(t)
        case Success(txResponse) =>
          var txHash := TxHash(txResponse);
          match Wait(p, txResponse)
          case Failure(t) => Failure(t)
          case Success(_) => Success(txHash)
  }

  /** `eth_signTransaction`: populate through the chain's provider, drop `from`, sign. */
  function SignTransactionBranch(p: EvmPorts, chainId: string, params: JsValue): (r: Result<JsValue, Thrown>)
  {
    match RpcUrl(chainId)
    case Failure(t) => Failure(t)
    case Success(rpc) =>
      match First(params)
      case Failure(t) => Failure(t)
      case Success(tx) =>
        match p.populateTransaction(rpc, tx)
        case Failure(t) => Failure(t)
        case Success(prepared) =>
          match DeleteProperty(prepared, "from")
          case Failure(t) => Failure(t)
          case Success(stripped) =>
            match p.signTransaction(stripped)
            case Success(signature) => Success(Str(signature))
            case Failure(t) => Failure(t)
  }

  // --------------------------------------------------------------- the switch

  /**
   * `approveSessionRequest`: a supported method always yields a response carrying the request
   * id (a result, or an error with the thrown `Error`'s message or the branch's fallback); any
   * other method throws INVALID_METHOD instead of answering.
   */
  function ApproveSessionRequest(p: EvmPorts, event: RequestEvent): (r: Result<Response, Thrown>)
    ensures r.Failure? <==> Eip155Data.MethodOf(event.methodName).None?
    ensures r.Failure? ==> r.error == ErrorObject(SdkErrorMessage(InvalidMethod))
    ensures r.Success? ==> r.value.Id() == event.id
  {
    match Eip155Data.MethodOf(event.methodName)
    case None => Failure(ErrorObject(SdkErrorMessage(InvalidMethod)))
    case Some(m) =>
      var id := event.id;
      Success(match m
        case PersonalSign => Respond(id, SignBranch(p, event.params), SIGN_MESSAGE_FALLBACK)
        case Sign => Respond(id, SignBranch(p, event.params), SIGN_MESSAGE_FALLBACK)
        case SignTypedData => Respond(id, TypedDataBranch(p, event.params), SIGN_TYPED_DATA_FALLBACK)
        case SignTypedDataV3 => Respond(id, TypedDataBranch(p, event.params), SIGN_TYPED_DATA_FALLBACK)
        case SignTypedDataV4 => Respond(id, TypedDataBranch(p, event.params), SIGN_TYPED_DATA_FALLBACK)
        case SendRawTransaction => Respond(id, SendBranch(p, true, event.chainId, event.params), SEND_TRANSACTION_FALLBACK)
        case SendTransaction => Respond(id, SendBranch(p, false, event.chainId, event.params), SEND_TRANSACTION_FALLBACK)
        case SignTransaction => Respond(id, SignTransactionBranch(p, event.chainId, event.params), SIGN_TRANSACTION_FALLBACK))
  }

  /** `rejectSessionRequest`: the USER_REJECTED error for the request id. */
  function RejectSessionRequest(event: RequestEvent): (r: Response)
    ensures r.RpcError? && r.Id() == event.id && r.message == SdkErrorMessage(UserRejected)
  {
    RpcError(event.id, SdkErrorMessage(UserRejected))
  }

  // ------------------------------------------------------------- properties

  /** `personal_sign` and `eth_sign` share one implementation; `_v3` and `_v4` are `eth_signTypedData`. */
  lemma AliasesShareImplementation(p: EvmPorts, event: RequestEvent)
    ensures ApproveSessionRequest(p, event.(methodName := "personal_sign"))
         == ApproveSessionRequest(p, event.(methodName := "eth_sign"))
    ensures ApproveSessionRequest(p, event.(methodName := "eth_signTypedData_v3"))
         == ApproveSessionRequest(p, event.(methodName := "eth_signTypedData"))
    ensures ApproveSessionRequest(p, event.(methodName := "eth_signTypedData_v4"))
         == ApproveSessionRequest(p, event.(methodName := "eth_signTypedData"))
  {
  }

  /** The message signed is the first non-address param, hex decoded. */
  lemma SignsFirstNonAddress(p: EvmPorts, event: RequestEvent, k: nat)
    requires event.methodName == "personal_sign" && event.params.Array?
    requires k < |event.params.items| && !Misc.IsAddress(p.ethers, event.params.items[k])
    requires forall j :: 0 <= j < k ==> Misc.IsAddress(p.ethers, event.params.items[j])
    requires Misc.ConvertHexToUtf8(p.ethers, event.params.items[k]).Success?
    ensures var message := Misc.ConvertHexToUtf8(p.ethers, event.params.items[k]).value;
      ApproveSessionRequest(p, event) == Success(Respond(event.id,
        (match p.signMessage(message) case Success(s) => Success(Str(s)) case Failure(t) => Failure(t)),
        SIGN_MESSAGE_FALLBACK))
  {
    Misc.SignMessagePicksFirstNonAddress(p.ethers, event.params.items, k);
  }

  /** Typed data is signed with `EIP712Domain` removed from an object `types`, the rest as given. */
  lemma TypedDataDropsDomainType(p: EvmPorts, params: JsValue, data: map<string, JsValue>)
    requires Misc.GetSignTypedDataParamsData(p.ethers, p.parse, params) == Success(Object(data))
    requires "types" in data && data["types"].Object?
    ensures var domain := if "domain" in data then data["domain"] else Undefined;
      var message := if "message" in data then data["message"] else Undefined;
      var signed := p.signTypedData(domain, Object(data["types"].fields - {"EIP712Domain"}), message);
      TypedDataBranch(p, params) == (if signed.Success? then Success(Str(signed.value)) else Failure(signed.error))
  {
  }

  /** Typed data whose `types` is missing, `undefined` or `null` fails on the `delete`, before any signing. */
  lemma TypedDataWithoutTypesFails(p: EvmPorts, params: JsValue, data: map<string, JsValue>)
    requires Misc.GetSignTypedDataParamsData(p.ethers, p.parse, params) == Success(Object(data))
    requires "types" !in data || data["types"].Undefined? || data["types"].Null?
    ensures TypedDataBranch(p, params) == Failure(ErrorObject(DELETE_OF_NOTHING))
  {
  }

  /** The populated transaction is signed without its `from` field. */
  lemma SignTransactionDropsFrom(p: EvmPorts, chainId: string, params: JsValue, fields: map<string, JsValue>)
    requires RpcUrl(chainId).Success? && First(params).Success?
    requires p.populateTransaction(RpcUrl(chainId).value, First(params).value) == Success(Object(fields))
    ensures var signed := p.signTransaction(Object(fields - {"from"}));
      SignTransactionBranch(p, chainId, params) == (if signed.Success? then Success(Str(signed.value)) else Failure(signed.error))
  {
  }

  /**
   * On a chain missing from the EIP-155 table, the send and sign-transaction methods answer
   * with an error response, and nothing is sent or signed.
   */
  lemma UnknownChainIsErrorResponse(p: EvmPorts, event: RequestEvent)
    requires Eip155Data.Lookup(Eip155Data.CHAINS, event.chainId).None?
    requires event.methodName in {"eth_sendTransaction", "eth_sendRawTransaction", "eth_signTransaction"}
    ensures ApproveSessionRequest(p, event) == Success(RpcError(event.id, PROPERTY_OF_NOTHING))
  {
  }

  /**
   * The send result: an object response whose `wait()` settles yields its `hash`; a string
   * response has no `wait` to call, so, as written, it ends in an error response rather than
   * being returned as the hash.
   */
  lemma SendResult(p: EvmPorts, chainId: string, params: JsValue, raw: bool, txResponse: JsValue)
    requires RpcUrl(chainId).Success? && First(params).Success?
    requires var rpc := RpcUrl(chainId).value;
      (if raw then p.broadcastTransaction(rpc, First(params).value) else p.sendTransaction(rpc, First(params).value))
        == Success(txResponse)
    ensures txResponse.Object? && p.wait(txResponse).Success? ==>
      SendBranch(p, raw, chainId, params) == Success(Get(txResponse, "hash").value)
    ensures txResponse.Str? ==> SendBranch(p, raw, chainId, params) == Failure(ErrorObject(WAIT_NOT_A_FUNCTION))
  {
  }
}
