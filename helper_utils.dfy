/**
 * src/utils/HelperUtils.ts repeats the three helpers of src/utils/misc.ts. Here they are
 * stated a second way, through the index of the first param that is not an address, and
 * proved to agree with the filter-based definitions pointwise.
 */
module HelperUtils {
  import opened Wrappers
  import opened Rpc
  import Misc

  /** The first index at or after `from` whose param is not an address. */
  function FirstNonAddressIndex(e: Misc.Ethers, items: seq<JsValue>, from: nat): (r: Option<nat>)
    requires from <= |items|
    ensures r.Some? ==> from <= r.value < |items| && !Misc.IsAddress(e, items[r.value])
    ensures r.Some? ==> forall j :: from <= j < r.value ==> Misc.IsAddress(e, items[j])
    ensures r.None? ==> forall j :: from <= j < |items| ==> Misc.IsAddress(e, items[j])
    decreases |items| - from
  {
    if from == |items| then None
    else if !Misc.IsAddress(e, items[from]) then Some(from)
    else FirstNonAddressIndex(e, items, from + 1)
  }

  /** `convertHexToUtf8` of HelperUtils.ts. */
  function ConvertHexToUtf8(e: Misc.Ethers, value: JsValue): (r: Result<JsValue, Thrown>)
  {
    match value
    case Str(s) =>
      if e.isHexString(s) then
        match e.toUtf8String(s)
        case Success(text) => Success(Str(text))
        case Failure(t) => Failure(t)
      else Success(value)
    case _ => Success(value)
  }

  /** The param the helpers look at: the first that is not an address, or `undefined`. */
  function MessageParam(e: Misc.Ethers, params: JsValue): (r: Result<JsValue, Thrown>)
  {
    if params.Undefined? || params.Null? then Failure(ErrorObject(PROPERTY_OF_NOTHING))
    else if !params.Array? then Failure(ErrorObject(Misc.FILTER_NOT_A_FUNCTION))
    else
      match FirstNonAddressIndex(e, params.items, 0)
      case Some(k) => Success(params.items[k])
      case None => Success(Undefined)
  }

  /** `getSignParamsMessage` of HelperUtils.ts. */
  function GetSignParamsMessage(e: Misc.Ethers, params: JsValue): (r: Result<JsValue, Thrown>)
  {
    match MessageParam(e, params)
    case Failure(t) => Failure(t)
    case Success(message) => ConvertHexToUtf8(e, message)
  }

  /** `getSignTypedDataParamsData` of HelperUtils.ts. */
  function GetSignTypedDataParamsData(e: Misc.Ethers, parse: Misc.JsonParse, params: JsValue): (r: Result<JsValue, Thrown>)
  {
    match MessageParam(e, params)
    case Failure(t) => Failure(t)
    case Success(data) =>
      match data
      case Str(s) => parse(s)
      case _ => Success(data)
  }

  /** The two copies of the helpers agree on every input. */
  lemma AgreesWithMisc(e: Misc.Ethers, parse: Misc.JsonParse, params: JsValue, value: JsValue)
    ensures ConvertHexToUtf8(e, value) == Misc.ConvertHexToUtf8(e, value)
    ensures MessageParam(e, params) == Misc.FirstNonAddress(e, params)
    ensures GetSignParamsMessage(e, params) == Misc.GetSignParamsMessage(e, params)
    ensures GetSignTypedDataParamsData(e, parse, params) == Misc.GetSignTypedDataParamsData(e, parse, params)
  {
    if params.Array? {
      var items := params.items;
      match FirstNonAddressIndex(e, items, 0)
      case Some(k) => Misc.SignMessagePicksFirstNonAddress(e, items, k);
      case None => Misc.SignMessageAllAddresses(e, items);
    }
  }
}
