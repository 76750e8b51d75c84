/**
 * The Hedera native signer of src/lib/HIP820Wallet.ts: the six HIP-820 JSON-RPC methods,
 * checking and decoding their params, dispatching to the signer, and shaping the results.
 * The SDK decoders and the signer itself are inputs of the model.
 */
module Hip820Wallet {
  import opened Wrappers
  import opened Rpc
  import Base64

  // ------------------------------------------------------------------ methods

  /** `HederaJsonRpcMethod`. */
  datatype HederaMethod =
    | GetNodeAddresses
    | ExecuteTransaction
    | SignMessage
    | SignAndExecuteQuery
    | SignAndExecuteTransaction
    | SignTransaction

  function HederaMethodName(m: HederaMethod): (name: string)
  {
    match m
    case GetNodeAddresses => "hedera_getNodeAddresses"
    case ExecuteTransaction => "hedera_executeTransaction"
    case SignMessage => "hedera_signMessage"
    case SignAndExecuteQuery => "hedera_signAndExecuteQuery"
    case SignAndExecuteTransaction => "hedera_signAndExecuteTransaction"
    case SignTransaction => "hedera_signTransaction"
  }

  /** The `switch (method)`: which of the six a method name is, if any. */
  function HederaMethodOf(name: string): (r: Option<HederaMethod>)
    ensures r.Some? ==> HederaMethodName(r.value) == name
    ensures r.None? ==> forall m: HederaMethod :: HederaMethodName(m) != name
  {
    if name == "hedera_getNodeAddresses" then Some(GetNodeAddresses)
    else if name == "hedera_executeTransaction" then Some(ExecuteTransaction)
    else if name == "hedera_signMessage" then Some(SignMessage)
    else if name == "hedera_signAndExecuteQuery" then Some(SignAndExecuteQuery)
    else if name == "hedera_signAndExecuteTransaction" then Some(SignAndExecuteTransaction)
    else if name == "hedera_signTransaction" then Some(SignTransaction)
    else None
  }

  /** The methods whose params name a signer account. */
  predicate HasSigner(m: HederaMethod)
  {
    m != GetNodeAddresses && m != ExecuteTransaction
  }

  // -------------------------------------------------------------- SDK objects

  /** An SDK `Transaction`; the model does not look inside. */
  datatype Transaction = Transaction(handle: nat)

  /** An SDK `Query`; the model does not look inside. */
  datatype Query = Query(handle: nat)

  /** An SDK `AccountId`, `shard.realm.num`. */
  datatype AccountId = AccountId(shard: nat, realm: nat, num: nat)

  /** What a method's params are decoded into before the signer is called. */
  datatype Body =
    | TransactionBody(tx: Transaction)
    | QueryBody(query: Query)
    | MessageBody(message: string)
    | BytesBody(bytes: seq<Base64.byte>)

  /** The decoders the parser calls; each may throw, except `Buffer.from(s, "base64")`. */
  datatype Decoders = Decoders(
    base64StringToTransaction: string -> Result<Transaction, Thrown>,
    base64StringToQuery: string -> Result<Query, Thrown>,
    accountIdFromString: string -> Result<AccountId, Thrown>,
    bufferFromBase64: string -> seq<Base64.byte>)

  /**
   * What the parser throws: `getHederaError("INVALID_PARAMS", detail?)`,
   * `getSdkError("INVALID_METHOD")`, or an exception from a property read or a decoder.
   */
  datatype Hip820Error = InvalidParams(detail: Option<string>) | InvalidMethodError | Threw(thrown: Thrown)

  // ---------------------------------------------------------- first occurrence

  predicate OccursAt(s: string, pattern: string, k: nat)
  {
    k + |pattern| <= |s| && s[k..k + |pattern|] == pattern
  }

  /** `s.indexOf(pattern, from)`. */
  function IndexOf(s: string, pattern: string, from: nat): (r: Option<nat>)
    requires from <= |s|
    ensures r.Some? ==> from <= r.value <= |s| && OccursAt(s, pattern, r.value)
    ensures r.Some? ==> forall k :: from <= k < r.value ==> !OccursAt(s, pattern, k)
    ensures r.None? ==> forall k :: from <= k <= |s| ==> !OccursAt(s, pattern, k)
    decreases |s| - from
  {
    if OccursAt(s, pattern, from) then Some(from)
    else if from == |s| then None
    else IndexOf(s, pattern, from + 1)
  }

  /** `s.replace(pattern, "")` with a string pattern: only the first occurrence goes. */
  function RemoveFirst(s: string, pattern: string): (r: string)
    ensures IndexOf(s, pattern, 0).None? ==> r == s
    ensures IndexOf(s, pattern, 0).Some? ==>
      var k := IndexOf(s, pattern, 0).value;
      |r| == |s| - |pattern| && r == s[..k] + s[k + |pattern|..]
  {
    match IndexOf(s, pattern, 0)
    case None => s
    case Some(k) => s[..k] + s[k + |pattern|..]
  }

  /** A CAIP-10 account `chainId:accountId` loses its chain prefix and keeps the rest. */
  lemma RemoveChainPrefix(chainId: string, accountId: string)
    ensures RemoveFirst(chainId + ":" + accountId, chainId + ":") == accountId
  {
    var s := chainId + ":" + accountId;
    var pattern := chainId + ":";
    assert s[0..|pattern|] == pattern;
    assert OccursAt(s, pattern, 0);
    assert s[|pattern|..] == accountId;
  }

  // --------------------------------------------------------------- validation

  /** `validateParam`: an array when "array" is asked for, otherwise `typeof` must match exactly. */
  function ValidateParam(name: string, value: JsValue, expectedType: string): (r: Option<Hip820Error>)
    ensures r.None? <==> (expectedType == "array" && value.Array?) || TypeOf(value) == expectedType
    ensures r.Some? ==> r.value == InvalidParams(Some(
      "Invalid paramameter value for " + name + ", expected " + expectedType + " but got " + TypeOf(value)))
  {
    if expectedType == "array" && value.Array? then None
    else if TypeOf(value) == expectedType then None
    else Some(InvalidParams(Some(
      "Invalid paramameter value for " + name + ", expected " + expectedType + " but got " + TypeOf(value))))
  }

  /** `const { name } = params` followed by `validateParam(name, value, "string")`. */
  function StringField(params: JsValue, name: string): (r: Result<string, Hip820Error>)
    ensures r.Success? <==> Get(params, name).Success? && Get(params, name).value.Str?
    ensures r.Success? ==> Get(params, name).value == Str(r.value)
  {
    match Get(params, name)
    case Failure(t) => Failure(Threw(t))
    case Success(value) =>
      match ValidateParam(name, value, "string")
      case Some(e) => Failure(e)
      case None => Success(value.s)
  }

  /** The field a method's body is decoded from. */
  function BodyField(m: HederaMethod): (name: string)
  {
    match m
    case GetNodeAddresses => ""
    case ExecuteTransaction => "transactionList"
    case SignMessage => "message"
    case SignAndExecuteQuery => "query"
    case SignAndExecuteTransaction => "transactionList"
    case SignTransaction => "transactionBody"
  }

  /** The decoding step of each method, applied to its validated field. */
  function DecodeBody(d: Decoders, m: HederaMethod, value: string): (r: Result<Body, Thrown>)
    requires m != GetNodeAddresses
    ensures r.Success? ==> BodyFits(m, Some(r.value))
  {
    match m
    case GetNodeAddresses => assert false; Success(MessageBody(value))
    case ExecuteTransaction =>
      (match d.base64StringToTransaction(value)
       case Success(tx) => Success(TransactionBody(tx))
       case Failure(t) => Failure(t))
    case SignMessage => Success(MessageBody(value))
    case SignAndExecuteQuery =>
      (match d.base64StringToQuery(value)
       case Success(q) => Success(QueryBody(q))
       case Failure(t) => Failure(t))
    case SignAndExecuteTransaction =>
      (match d.base64StringToTransaction(value)
       case Success(tx) => Success(TransactionBody(tx))
       case Failure(t) => Failure(t))
    case SignTransaction => Success(BytesBody(d.bufferFromBase64(value)))
  }

  /** The body each handler expects. */
  predicate BodyFits(m: HederaMethod, body: Option<Body>)
  {
    match m
    case GetNodeAddresses => true
    case ExecuteTransaction => body.Some? && body.value.TransactionBody?
    case SignMessage => body.Some? && body.value.MessageBody?
    case SignAndExecuteQuery => body.Some? && body.value.QueryBody?
    case SignAndExecuteTransaction => body.Some? && body.value.TransactionBody?
    case SignTransaction => body.Some? && body.value.BytesBody?
  }

  // ------------------------------------------------------------------ parsing

  /**
   * The local state of the parser when the `switch` ends or throws: `body` and
   * `signerAccountId` as far as they were assigned, and the exception if one was raised.
   */
  datatype Parsed = Parsed(body: Option<Body>, accountId: Option<AccountId>, error: Option<Hip820Error>)

  /** The four methods with a signer: both fields checked, then the account, then the body. */
  function ParseSigned(d: Decoders, m: HederaMethod, chainId: string, params: JsValue): (r: Parsed)
    requires HasSigner(m)
  {
    match StringField(params, "signerAccountId")
    case Failure(e) => Parsed(None, None, Some(e))
    case Success(raw) =>
      match StringField(params, BodyField(m))
      case Failure(e) => Parsed(None, None, Some(e))
      case Success(value) =>
        match d.accountIdFromString(RemoveFirst(raw, chainId + ":"))
        case Failure(t) => Parsed(None, None, Some(Threw(t)))
        case Success(account) =>
          match DecodeBody(d, m, value)
          case Failure(t) => Parsed(None, Some(account), Some(Threw(t)))
          case Success(body) => Parsed(Some(body), Some(account), None)
  }

  /** The `switch` of `parseSessionRequest`. */
  function ParseParams(d: Decoders, methodName: string, chainId: string, params: JsValue): (r: Parsed)
    ensures HederaMethodOf(methodName).None? ==> r == Parsed(None, None, Some(InvalidMethodError))
    ensures r.error.None? ==> HederaMethodOf(methodName).Some? && BodyFits(HederaMethodOf(methodName).value, r.body)
    ensures r.accountId.Some? ==> HederaMethodOf(methodName).Some? && HasSigner(HederaMethodOf(methodName).value)
  {
    match HederaMethodOf(methodName)
    case None => Parsed(None, None, Some(InvalidMethodError))
    case Some(GetNodeAddresses) =>
      if Truthy(params) then Parsed(None, None, Some(InvalidParams(None))) else Parsed(None, None, None)
    case Some(ExecuteTransaction) =>
      (match StringField(params, "transactionList")
       case Failure(e) => Parsed(None, None, Some(e))
       case Success(value) =>
         match DecodeBody(d, ExecuteTransaction, value)
         case Failure(t) => Parsed(None, None, Some(Threw(t)))
         case Success(body) => Parsed(Some(body), None, None))
    case Some(m) => ParseSigned(d, m, chainId, params)
  }

  /** The value `parseSessionRequest` returns. */
  datatype ParsedRequest = ParsedRequest(
    methodName: string, chainId: string, id: int, topic: string,
    body: Option<Body>, accountId: Option<AccountId>)

  /**
   * `parseSessionRequest(event, shouldThrow)`: with `shouldThrow` a parse error is re-thrown;
   * without it the error is swallowed and the request still comes back, carrying the event's
   * id, topic, method and chain and whatever body and account were assigned before the throw.
   */
  function ParseSessionRequest(d: Decoders, event: RequestEvent, shouldThrow: bool): (r: Result<ParsedRequest, Hip820Error>)
    ensures var p := ParseParams(d, event.methodName, event.chainId, event.params);
      (r.Failure? <==> shouldThrow && p.error.Some?) &&
      (r.Failure? ==> r.error == p.error.value) &&
      (r.Success? ==> r.value == ParsedRequest(event.methodName, event.chainId, event.id, event.topic, p.body, p.accountId))
  {
    var p := ParseParams(d, event.methodName, event.chainId, event.params);
    if p.error.Some? && shouldThrow then Failure(p.error.value)
    else Success(ParsedRequest(event.methodName, event.chainId, event.id, event.topic, p.body, p.accountId))
  }

  // ------------------------------------------------------- properties of parsing

  /** `hedera_getNodeAddresses` takes no params: any truthy params are INVALID_PARAMS. */
  lemma GetNodeAddressesParams(d: Decoders, chainId: string, params: JsValue)
    ensures var r := ParseParams(d, HederaMethodName(GetNodeAddresses), chainId, params);
      r.body.None? && r.accountId.None? &&
      (Truthy(params) <==> r.error == Some(InvalidParams(None))) &&
      (!Truthy(params) <==> r.error.None?)
  {
  }

  /**
   * Decoding happens only after validation: when a required field of an object's params is not
   * a string, the parse fails with INVALID_PARAMS, assigns nothing, and no decoder is consulted
   * (any two sets of decoders give the same outcome).
   */
  lemma ValidationBeforeDecoding(d1: Decoders, d2: Decoders, m: HederaMethod, chainId: string,
                                 fields: map<string, JsValue>, bad: string)
    requires m != GetNodeAddresses
    requires bad == BodyField(m) || (HasSigner(m) && bad == "signerAccountId")
    requires bad !in fields || !fields[bad].Str?
    ensures var r := ParseParams(d1, HederaMethodName(m), chainId, Object(fields));
      r == ParseParams(d2, HederaMethodName(m), chainId, Object(fields)) &&
      r.body.None? && r.accountId.None? && r.error.Some? && r.error.value.InvalidParams?
  {
    assert HederaMethodOf(HederaMethodName(m)) == Some(m);
    assert StringField(Object(fields), bad).Failure?;
  }

  /**
   * A well-formed request: the signer account is the `signerAccountId` param with the first
   * `chainId:` removed, and the body is the decoded body field.
   */
  lemma ParseSignedRequest(d: Decoders, m: HederaMethod, chainId: string, fields: map<string, JsValue>,
                           raw: string, value: string, account: AccountId, body: Body)
    requires HasSigner(m)
    requires "signerAccountId" in fields && fields["signerAccountId"] == Str(raw)
    requires BodyField(m) in fields && fields[BodyField(m)] == Str(value)
    requires d.accountIdFromString(RemoveFirst(raw, chainId + ":")) == Success(account)
    requires DecodeBody(d, m, value) == Success(body)
    ensures ParseParams(d, HederaMethodName(m), chainId, Object(fields)) == Parsed(Some(body), Some(account), None)
    ensures m == SignMessage ==> body == MessageBody(value)
    ensures m == SignTransaction ==> body == BytesBody(d.bufferFromBase64(value))
  {
    assert HederaMethodOf(HederaMethodName(m)) == Some(m);
  }

  /**
   * When the signer account parses but the body decoder throws, the account stays assigned: a
   * caller with `shouldThrow = false` receives it without a body.
   */
  lemma PartialAssignmentKept(d: Decoders, event: RequestEvent, m: HederaMethod, raw: string, value: string,
                              account: AccountId, t: Thrown)
    requires HasSigner(m) && event.methodName == HederaMethodName(m) && event.params.Object?
    requires "signerAccountId" in event.params.fields && event.params.fields["signerAccountId"] == Str(raw)
    requires BodyField(m) in event.params.fields && event.params.fields[BodyField(m)] == Str(value)
    requires d.accountIdFromString(RemoveFirst(raw, event.chainId + ":")) == Success(account)
    requires DecodeBody(d, m, value) == Failure(t)
    ensures ParseSessionRequest(d, event, true) == Failure(Threw(t))
    ensures ParseSessionRequest(d, event, false) ==
      Success(ParsedRequest(event.methodName, event.chainId, event.id, event.topic, None, Some(account)))
  {
    assert HederaMethodOf(HederaMethodName(m)) == Some(m);
  }

  // ------------------------------------------------------------ the signer

  /** What `executeWithSigner` returns: one result, or an array of them; each as `toBytes()`. */
  datatype QueryResult = OneResult(bytes: seq<Base64.byte>) | ManyResults(items: seq<seq<Base64.byte>>)

  /** The Hedera `Wallet` the handlers call; every call may throw. */
  datatype HederaSigner = HederaSigner(
    /** `Object.values(wallet.getNetwork())`, each `toString()`ed */
    nodeAccountIds: seq<string>,
    /** `(await wallet.call(tx)).toJSON()` */
    call: Transaction -> Result<JsValue, Thrown>,
    /** `wallet.signTransaction(tx)` */
    signTransaction: Transaction -> Result<Transaction, Thrown>,
    /** `wallet.sign(messages)`, turned into a base64 signature map */
    sign: seq<seq<Base64.byte>> -> Result<string, Thrown>,
    /** `stringToSignerMessage(message)` */
    signerMessage: string -> seq<seq<Base64.byte>>,
    /** `query.executeWithSigner(wallet)` */
    executeQuery: Query -> Result<QueryResult, Thrown>)

  /** `parts.join(sep)`. */
  function Join(parts: seq<string>, sep: char): (r: string)
  {
    if |parts| == 0 then ""
    else if |parts| == 1 then parts[0]
    else parts[0] + [sep] + Join(parts[1..], sep)
  }

  /** `s.split(sep)`: always at least one piece. */
  function Split(s: string, sep: char): (r: seq<string>)
    ensures |r| >= 1
  {
    if |s| == 0 then [""]
    else
      var rest := Split(s[1..], sep);
      if s[0] == sep then [""] + rest
      else [[s[0]] + rest[0]] + rest[1..]
  }

  lemma {:induction false} SplitWithoutSeparator(a: string, sep: char, tail: seq<string>, t: string)
    requires forall i :: 0 <= i < |a| ==> a[i] != sep
    requires Split(t, sep) == tail
    ensures Split(a, sep) == [a]
    ensures Split(a + [sep] + t, sep) == [a] + tail
    decreases |a|
  {
    if |a| > 0 {
      SplitWithoutSeparator(a[1..], sep, tail, t);
      assert (a + [sep] + t)[1..] == a[1..] + [sep] + t;
      assert [a[0]] + a[1..] == a;
    } else {
      assert a + [sep] + t == [sep] + t;
      assert ([sep] + t)[1..] == t;
    }
  }

  /** Splitting a join gives the parts back, when there is one at least and none holds the separator. */
  lemma {:induction false} SplitJoin(parts: seq<string>, sep: char)
    requires |parts| >= 1
    requires forall j, i :: 0 <= j < |parts| && 0 <= i < |parts[j]| ==> parts[j][i] != sep
    ensures Split(Join(parts, sep), sep) == parts
    decreases |parts|
  {
    if |parts| == 1 {
      SplitWithoutSeparator(parts[0], sep, [""], "");
    } else {
      SplitJoin(parts[1..], sep);
      SplitWithoutSeparator(parts[0], sep, parts[1..], Join(parts[1..], sep));
    }
  }

  /** The `response` of `hedera_signAndExecuteQuery`: each result in base64, comma-joined for an array. */
  function QueryResponse(qr: QueryResult): (r: string)
  {
    match qr
    case OneResult(bytes) => Base64.Encode(bytes)
    case ManyResults(items) => Join(seq(|items|, i requires 0 <= i < |items| => Base64.Encode(items[i])), ',')
  }

  /**
   * The query response can be read back: a single result is its base64 text, and a non-empty
   * array splits at the commas into one base64 text per result, in order.
   */
  lemma QueryResponseRoundTrip(qr: QueryResult)
    ensures qr.OneResult? ==> Base64.Decode(QueryResponse(qr)) == Success(qr.bytes)
    ensures qr.ManyResults? && |qr.items| >= 1 ==>
      var pieces := Split(QueryResponse(qr), ',');
      |pieces| == |qr.items| &&
      forall i :: 0 <= i < |pieces| ==> Base64.Decode(pieces[i]) == Success(qr.items[i])
  {
    match qr
    case OneResult(bytes) => Base64.DecodeEncode(bytes);
    case ManyResults(items) =>
      if |items| >= 1 {
        var parts := seq(|items|, i requires 0 <= i < |items| => Base64.Encode(items[i]));
        forall j, i | 0 <= j < |parts| && 0 <= i < |parts[j]| ensures parts[j][i] != ',' {
          Base64.EncodeCharacters(items[j]);
        }
        SplitJoin(parts, ',');
        forall i | 0 <= i < |parts| ensures Base64.Decode(parts[i]) == Success(items[i]) {
          Base64.DecodeEncode(items[i]);
        }
      }
  }

  // --------------------------------------------------------------- dispatch

  /** The six handlers, `this[method](id, body)`. */
  function Handle(w: HederaSigner, m: HederaMethod, id: int, body: Option<Body>): (r: Result<Response, Hip820Error>)
    requires BodyFits(m, body)
    ensures r.Success? ==> r.value.RpcResult? && r.value.id == id
  {
    match m
    case GetNodeAddresses =>
      var nodes := seq(|w.nodeAccountIds|, i requires 0 <= i < |w.nodeAccountIds| => Str(w.nodeAccountIds[i]));
      Success(RpcResult(id, Object(map["nodes" := Array(nodes)])))
    case ExecuteTransaction =>
      (match w.call(body.value.tx)
       case Success(json) => Success(RpcResult(id, json))
       case Failure(t) => Failure(Threw(t)))
    case SignMessage =>
      (match w.sign(w.signerMessage(body.value.message))
       case Success(signatureMap) => Success(RpcResult(id, Object(map["signatureMap" := Str(signatureMap)])))
       case Failure(t) => Failure(Threw(t)))
    case SignAndExecuteQuery =>
      (match w.executeQuery(body.value.query)
       case Success(qr) => Success(RpcResult(id, Object(map["response" := Str(QueryResponse(qr))])))
       case Failure(t) => Failure(Threw(t)))
    case SignAndExecuteTransaction =>
      (match w.signTransaction(body.value.tx)
       case Failure(t) => Failure(Threw(t))
       case Success(signed) =>
         match w.call(signed)
         case Success(json) => Success(RpcResult(id, json))
         case Failure(t) => Failure(Threw(t)))
    case SignTransaction =>
      (match w.sign([body.value.bytes])
       case Success(signatureMap) => Success(RpcResult(id, Object(map["signatureMap" := Str(signatureMap)])))
       case Failure(t) => Failure(Threw(t)))
  }

  /**
   * `approveSessionRequest`: parse (re-throwing), then call the method's handler. It either
   * returns a result carrying the request id or throws: a parse error, or the signer's exception.
   */
  function ApproveSessionRequest(d: Decoders, w: HederaSigner, event: RequestEvent): (r: Result<Response, Hip820Error>)
    ensures var p := ParseParams(d, event.methodName, event.chainId, event.params);
      (p.error.Some? ==> r == Failure(p.error.value)) &&
      (p.error.None? && r.Failure? ==> r.error.Threw?)
    ensures r.Success? ==> r.value.RpcResult? && r.value.id == event.id
  {
    match ParseSessionRequest(d, event, true)
    case Failure(e) => Failure(e)
    case Success(request) =>
      Handle(w, HederaMethodOf(request.methodName).value, request.id, request.body)
  }

  /**
   * `hedera_getNodeAddresses` without params answers with an object whose only field, `nodes`,
   * lists the network's node account ids as strings, one per node, in order.
   */
  lemma NodeAddressesListed(d: Decoders, w: HederaSigner, event: RequestEvent)
    requires event.methodName == HederaMethodName(GetNodeAddresses) && !Truthy(event.params)
    ensures var r := ApproveSessionRequest(d, w, event);
      r.Success? && r.value.RpcResult? && r.value.id == event.id &&
      r.value.result.Object? && r.value.result.fields.Keys == {"nodes"} &&
      r.value.result.fields["nodes"].Array? &&
      |r.value.result.fields["nodes"].items| == |w.nodeAccountIds| &&
      forall i :: 0 <= i < |w.nodeAccountIds| ==> r.value.result.fields["nodes"].items[i] == Str(w.nodeAccountIds[i])
  {
    GetNodeAddressesParams(d, event.chainId, event.params);
  }

  /** `rejectSessionRequest`: the USER_REJECTED error for the request id, whatever the params. */
  function RejectSessionRequest(event: RequestEvent): (r: Response)
    ensures r.RpcError? && r.Id() == event.id && r.message == SdkErrorMessage(UserRejected)
  {
    RpcError(event.id, SdkErrorMessage(UserRejected))
  }
}
