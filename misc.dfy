/**
 * The signing-parameter helpers of src/utils/misc.ts: pick the request param that is not
 * an address, and decode it (hex to UTF-8 for messages, JSON for typed data).
 */
module Misc {
  import opened Wrappers
  import opened Rpc

  /**
   * The ethers helpers called here. `isAddress` and `isHexString` are false on anything that
   * is not a string, so they are given on strings only.
   */
  datatype Ethers = Ethers(
    isAddress: string -> bool,
    isHexString: string -> bool,
    /** `ethers.toUtf8String(hex)`: throws on bytes that are not UTF-8 */
    toUtf8String: string -> Result<string, Thrown>)

  /** `JSON.parse`. */
  type JsonParse = string -> Result<JsValue, Thrown>

  /** The message `params.filter` raises when `params` is not an array. */
  const FILTER_NOT_A_FUNCTION := "params.filter is not a function"

  /** `ethers.isAddress(v)`. */
  predicate IsAddress(e: Ethers, v: JsValue)
  {
    v.Str? && e.isAddress(v.s)
  }

  /** `ethers.isHexString(v)`. */
  predicate IsHexString(e: Ethers, v: JsValue)
  {
    v.Str? && e.isHexString(v.s)
  }

  /** `convertHexToUtf8`: hex text is decoded to UTF-8, anything else comes back unchanged. */
  function ConvertHexToUtf8(e: Ethers, value: JsValue): (r: Result<JsValue, Thrown>)
    ensures !IsHexString(e, value) ==> r == Success(value)
    ensures IsHexString(e, value) ==> (r.Success? <==> e.toUtf8String(value.s).Success?)
    ensures IsHexString(e, value) && r.Success? ==> r.value == Str(e.toUtf8String(value.s).value)
  {
    if IsHexString(e, value) then
      match e.toUtf8String(value.s)
      case Success(text) => Success(Str(text))
      case Failure(t) => Failure(t)
    else Success(value)
  }

  /** `items.filter((p) => !isAddress(p))`. */
  function WithoutAddresses(e: Ethers, items: seq<JsValue>): (r: seq<JsValue>)
  {
    if |items| == 0 then []
    else if IsAddress(e, items[0]) then WithoutAddresses(e, items[1..])
    else [items[0]] + WithoutAddresses(e, items[1..])
  }

  /**
   * `params.filter((p) => !isAddress(p))[0]`: `undefined` when every param is an address. Reading
   * `filter` of `undefined`/`null` throws; on any other non-array there is no `filter` to call.
   */
  function FirstNonAddress(e: Ethers, params: JsValue): (r: Result<JsValue, Thrown>)
  {
    if params.Undefined? || params.Null? then Failure(ErrorObject(PROPERTY_OF_NOTHING))
    else if !params.Array? then Failure(ErrorObject(FILTER_NOT_A_FUNCTION))
    else
      var kept := WithoutAddresses(e, params.items);
      Success(if |kept| == 0 then Undefined else kept[0])
  }

  /** `getSignParamsMessage`. */
  function GetSignParamsMessage(e: Ethers, params: JsValue): (r: Result<JsValue, Thrown>)
  {
    match FirstNonAddress(e, params)
    case Failure(t) => Failure(t)
    case Success(message) => ConvertHexToUtf8(e, message)
  }

  /** `getSignTypedDataParamsData`: a string is JSON-parsed, anything else passes through. */
  function GetSignTypedDataParamsData(e: Ethers, parse: JsonParse, params: JsValue): (r: Result<JsValue, Thrown>)
  {
    match FirstNonAddress(e, params)
    case Failure(t) => Failure(t)
    case Success(data) => if data.Str? then parse(data.s) else Success(data)
  }

  lemma {:induction false} WithoutAddressesHead(e: Ethers, items: seq<JsValue>, k: nat)
    requires k < |items| && !IsAddress(e, items[k])
    requires forall j :: 0 <= j < k ==> IsAddress(e, items[j])
    ensures |WithoutAddresses(e, items)| > 0 && WithoutAddresses(e, items)[0] == items[k]
  {
    if k > 0 {
      WithoutAddressesHead(e, items[1..], k - 1);
    }
  }

  lemma {:induction false} WithoutAddressesEmpty(e: Ethers, items: seq<JsValue>)
    requires forall j :: 0 <= j < |items| ==> IsAddress(e, items[j])
    ensures WithoutAddresses(e, items) == []
  {
    if |items| > 0 {
      WithoutAddressesEmpty(e, items[1..]);
    }
  }

  /** The message is the first param, in order, that is not an address, run through `convertHexToUtf8`. */
  lemma SignMessagePicksFirstNonAddress(e: Ethers, items: seq<JsValue>, k: nat)
    requires k < |items| && !IsAddress(e, items[k])
    requires forall j :: 0 <= j < k ==> IsAddress(e, items[j])
    ensures FirstNonAddress(e, Array(items)) == Success(items[k])
    ensures GetSignParamsMessage(e, Array(items)) == ConvertHexToUtf8(e, items[k])
  {
    WithoutAddressesHead(e, items, k);
  }

  /** When every param is an address there is no message: the result is `undefined`. */
  lemma SignMessageAllAddresses(e: Ethers, items: seq<JsValue>)
    requires forall j :: 0 <= j < |items| ==> IsAddress(e, items[j])
    ensures FirstNonAddress(e, Array(items)) == Success(Undefined)
    ensures GetSignParamsMessage(e, Array(items)) == Success(Undefined)
    ensures GetSignTypedDataParamsData(e, (s: string) => Success(Str(s)), Array(items)) == Success(Undefined)
  {
    WithoutAddressesEmpty(e, items);
  }

  /** Typed data: the first non-address param is parsed when it is a string and returned as is otherwise. */
  lemma TypedDataPicksFirstNonAddress(e: Ethers, parse: JsonParse, items: seq<JsValue>, k: nat)
    requires k < |items| && !IsAddress(e, items[k])
    requires forall j :: 0 <= j < k ==> IsAddress(e, items[j])
    ensures items[k].Str? ==> GetSignTypedDataParamsData(e, parse, Array(items)) == parse(items[k].s)
    ensures !items[k].Str? ==> GetSignTypedDataParamsData(e, parse, Array(items)) == Success(items[k])
  {
    WithoutAddressesHead(e, items, k);
  }
}
