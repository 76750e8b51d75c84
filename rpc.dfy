/**
 * Values and messages shared by the request path: JavaScript values as they arrive in a
 * request's params, thrown values, the WalletConnect SDK error keys, request events and
 * JSON-RPC responses (as `formatJsonRpcResult` / `formatJsonRpcError` shape them).
 */
module Rpc {
  import opened Wrappers

  datatype Network = Testnet | Mainnet

  /** The network's name as the providers interpolate it (`hedera:${network}`). */
  function NetworkName(n: Network): (name: string)
  {
    if n == Testnet then "testnet" else "mainnet"
  }

  /** A JavaScript value. Numbers are kept as integers; nothing here computes with them. */
  datatype JsValue =
    | Undefined
    | Null
    | Bool(b: bool)
    | Number(n: int)
    | Str(s: string)
    | Array(items: seq<JsValue>)
    | Object(fields: map<string, JsValue>)

  /** `typeof v`. */
  function TypeOf(v: JsValue): (t: string)
  {
    match v
    case Undefined => "undefined"
    case Bool(_) => "boolean"
    case Number(_) => "number"
    case Str(_) => "string"
    case _ => "object"
  }

  /** JavaScript truthiness, as `if (v)` and `!v` test it. */
  predicate Truthy(v: JsValue)
  {
    match v
    case Undefined => false
    case Null => false
    case Bool(b) => b
    case Number(n) => n != 0
    case Str(s) => s != ""
    case _ => true
  }

  /** A thrown value: an `Error` object with its message, or anything else. */
  datatype Thrown = ErrorObject(message: string) | NonError(value: JsValue)

  /** The message of the TypeError raised by reading a property of `undefined` or `null`. */
  const PROPERTY_OF_NOTHING := "Cannot read properties of undefined or null"

  /** `v.name` (also `const { name } = v`): throws on `undefined` and `null`, absent fields read as `undefined`. */
  function Get(v: JsValue, name: string): (r: Result<JsValue, Thrown>)
  {
    match v
    case Undefined => Failure(ErrorObject(PROPERTY_OF_NOTHING))
    case Null => Failure(ErrorObject(PROPERTY_OF_NOTHING))
    case Object(fields) => Success(if name in fields then fields[name] else Undefined)
    case _ => Success(Undefined)
  }

  /** The keys of `getSdkError` from @walletconnect/utils that this wallet uses. */
  datatype SdkError = UserRejected | UserRejectedMethods | InvalidMethod | UserDisconnected

  /** `getSdkError(key).message`. */
  function SdkErrorMessage(e: SdkError): (message: string)
  {
    match e
    case UserRejected => "User rejected."
    case UserRejectedMethods => "User rejected methods."
    case InvalidMethod => "Invalid method."
    case UserDisconnected => "User disconnected."
  }

  /** A `session_request` event: its id, topic, the chain it names and the JSON-RPC request. */
  datatype RequestEvent = RequestEvent(id: int, topic: string, chainId: string, methodName: string, params: JsValue)

  /** A JSON-RPC response: a result or an error message, both carrying the request id. */
  datatype Response = RpcResult(id: int, result: JsValue) | RpcError(id: int, message: string)
  {
    function Id(): int
    {
      match this
      case RpcResult(id, _) => id
      case RpcError(id, _) => id
    }
  }
}
