/** The Tari Universe signer: packages each public method of the signer into
    a request envelope, gives it the next call identifier from a per-instance
    counter, and hands it to the transport. Also the side-channel filter that
    turns "resize" window messages into resize events. */
module Signer {
  import opened Values

  /** A request as handed to the transport, before its identifier is attached. */
  datatype SignerRequest = SignerRequest(methodName: string, args: seq<JsValue>)

  /** One transport call: the request together with its allocated identifier. */
  datatype SignerCall = SignerCall(request: SignerRequest, id: nat)

  /** A signer instance. `lastId` is the private counter: the identifier of
      the most recent request, 0 before the first one. */
  datatype TariUniverseSigner = TariUniverseSigner(signerName: string, lastId: nat, params: JsValue)

  /** The effect of one public method: the signer after the call and the call
      it handed to the transport. */
  datatype Sent = Sent(signer: TariUniverseSigner, call: SignerCall)

  /** A fresh signer. Registering the window message listener is not modelled. */
  function NewSigner(params: JsValue): (s: TariUniverseSigner)
    ensures s.lastId == 0
    ensures s.signerName == "TariUniverse" && s.params == params
  {
    TariUniverseSigner("TariUniverse", 0, params)
  }

  /** Allocates the next identifier (pre-increment of the counter) and sends
      the request under it. */
  function SendRequest(s: TariUniverseSigner, req: SignerRequest): (r: Sent)
    ensures r.call.request == req
    ensures r.call.id > s.lastId && r.signer.lastId == r.call.id
    ensures r.signer.lastId == s.lastId + 1
    ensures r.signer.signerName == s.signerName && r.signer.params == s.params
  {
    var id := s.lastId + 1;
    Sent(s.(lastId := id), SignerCall(req, id))
  }

  function IsConnected(s: TariUniverseSigner): (r: bool)
    ensures r
  {
    true
  }

  /** The remote operations, with the arguments each one takes. */
  datatype Invocation =
    | GetPublicKeyCall
    | ListSubstatesCall(filterByTemplate: Option<string>, filterByType: Option<string>,
                        limit: Option<int>, offset: Option<int>)
    | GetConfidentialVaultBalancesCall(viewKeyId: int, vaultId: string, min: Option<int>, max: Option<int>)
    | CreateFreeTestCoinsCall
    | RequestParentSizeCall
    | GetAccountCall
    | GetAccountBalancesCall(componentAddress: string)
    | GetSubstateCall(substateId: string)
    | SubmitTransactionCall(submitRequest: JsValue)
    | GetTransactionResultCall(transactionId: string)
    | GetTemplateDefinitionCall(templateAddress: string)
    | GetNftsListCall(nftRequest: JsValue)
    | GetNftsFromAccountBalancesCall(balancesRequest: JsValue)

  // Reading request arguments back, as the receiving side would.

  function AsString(v: JsValue): Option<string> {
    if v.Str? then Some(v.s) else None
  }

  function AsNumber(v: JsValue): Option<int> {
    if v.Num? then Some(v.n) else None
  }

  function AsNullableString(v: JsValue): Option<Option<string>> {
    match v
    case Null => Some(None)
    case Str(s) => Some(Some(s))
    case _ => None
  }

  function AsNullableNumber(v: JsValue): Option<Option<int>> {
    match v
    case Null => Some(None)
    case Num(n) => Some(Some(n))
    case _ => None
  }

  /** Recovers the operation and its arguments from a request envelope: the
      method name selects the operation, and its arguments are read
      positionally. Requests of any other shape decode to None. */
  function Decode(req: SignerRequest): Option<Invocation> {
    var name := req.methodName;
    var args := req.args;
    if |args| == 0 then
      if name == "getPublicKey" then Some(GetPublicKeyCall)
      else if name == "createFreeTestCoins" then Some(CreateFreeTestCoinsCall)
      else if name == "requestParentSize" then Some(RequestParentSizeCall)
      else if name == "getAccount" then Some(GetAccountCall)
      else None
    else if |args| == 1 then
      var a := args[0];
      var text := AsString(a);
      if name == "submitTransaction" then Some(SubmitTransactionCall(a))
      else if name == "getNftsList" then Some(GetNftsListCall(a))
      else if name == "getNftsFromAccountBalances" then Some(GetNftsFromAccountBalancesCall(a))
      else if text.None? then None
      else if name == "getAccountBalances" then Some(GetAccountBalancesCall(text.value))
      else if name == "getSubstate" then Some(GetSubstateCall(text.value))
      else if name == "getTransactionResult" then Some(GetTransactionResultCall(text.value))
      else if name == "getTemplateDefinition" then Some(GetTemplateDefinitionCall(text.value))
      else None
    else if |args| == 4 then
      var lo := AsNullableNumber(args[2]);
      var hi := AsNullableNumber(args[3]);
      if lo.None? || hi.None? then None
      else if name == "listSubstates" then
        var template := AsNullableString(args[0]);
        var substateType := AsNullableString(args[1]);
        if template.Some? && substateType.Some? then
          Some(ListSubstatesCall(template.value, substateType.value, lo.value, hi.value))
        else None
      else if name == "getConfidentialVaultBalances" then
        var viewKey := AsNumber(args[0]);
        var vault := AsString(args[1]);
        if viewKey.Some? && vault.Some? then
          Some(GetConfidentialVaultBalancesCall(viewKey.value, vault.value, lo.value, hi.value))
        else None
      else None
    else None
  }

  /** One identifier allocated, and the signer otherwise unchanged. */
  ghost predicate OneIdAllocated(s: TariUniverseSigner, r: Sent) {
    && r.call.id == s.lastId + 1
    && r.signer == s.(lastId := s.lastId + 1)
  }

  // The public methods. Each sends exactly one request whose method name is
  // its own and whose arguments are its parameters in declared order.

  function GetPublicKey(s: TariUniverseSigner): (r: Sent)
    ensures OneIdAllocated(s, r)
    ensures r.call.request.methodName == "getPublicKey" && r.call.request.args == []
    ensures Decode(r.call.request) == Some(GetPublicKeyCall)
  {
    SendRequest(s, SignerRequest("getPublicKey", []))
  }

  function ListSubstates(s: TariUniverseSigner, filterByTemplate: Option<string>, filterByType: Option<string>,
                         limit: Option<int>, offset: Option<int>): (r: Sent)
    ensures OneIdAllocated(s, r)
    ensures r.call.request.methodName == "listSubstates" && |r.call.request.args| == 4
    ensures Decode(r.call.request) == Some(ListSubstatesCall(filterByTemplate, filterByType, limit, offset))
  {
    SendRequest(s, SignerRequest("listSubstates",
      [NullableString(filterByTemplate), NullableString(filterByType), NullableNumber(limit), NullableNumber(offset)]))
  }

  function GetConfidentialVaultBalances(s: TariUniverseSigner, viewKeyId: int, vaultId: string,
                                        min: Option<int>, max: Option<int>): (r: Sent)
    ensures OneIdAllocated(s, r)
    ensures r.call.request.methodName == "getConfidentialVaultBalances" && |r.call.request.args| == 4
    ensures Decode(r.call.request) == Some(GetConfidentialVaultBalancesCall(viewKeyId, vaultId, min, max))
  {
    SendRequest(s, SignerRequest("getConfidentialVaultBalances",
      [Num(viewKeyId), Str(vaultId), NullableNumber(min), NullableNumber(max)]))
  }

  function CreateFreeTestCoins(s: TariUniverseSigner): (r: Sent)
    ensures OneIdAllocated(s, r)
    ensures r.call.request.methodName == "createFreeTestCoins" && r.call.request.args == []
    ensures Decode(r.call.request) == Some(CreateFreeTestCoinsCall)
  {
    SendRequest(s, SignerRequest("createFreeTestCoins", []))
  }

  function RequestParentSize(s: TariUniverseSigner): (r: Sent)
    ensures OneIdAllocated(s, r)
    ensures r.call.request.methodName == "requestParentSize" && r.call.request.args == []
    ensures Decode(r.call.request) == Some(RequestParentSizeCall)
  {
    SendRequest(s, SignerRequest("requestParentSize", []))
  }

  function GetAccount(s: TariUniverseSigner): (r: Sent)
    ensures OneIdAllocated(s, r)
    ensures r.call.request.methodName == "getAccount" && r.call.request.args == []
    ensures Decode(r.call.request) == Some(GetAccountCall)
  {
    SendRequest(s, SignerRequest("getAccount", []))
  }

  function GetAccountBalances(s: TariUniverseSigner, componentAddress: string): (r: Sent)
    ensures OneIdAllocated(s, r)
    ensures r.call.request.methodName == "getAccountBalances" && r.call.request.args == [Str(componentAddress)]
    ensures Decode(r.call.request) == Some(GetAccountBalancesCall(componentAddress))
  {
    SendRequest(s, SignerRequest("getAccountBalances", [Str(componentAddress)]))
  }

  function GetSubstate(s: TariUniverseSigner, substateId: string): (r: Sent)
    ensures OneIdAllocated(s, r)
    ensures r.call.request.methodName == "getSubstate" && r.call.request.args == [Str(substateId)]
    ensures Decode(r.call.request) == Some(GetSubstateCall(substateId))
  {
    SendRequest(s, SignerRequest("getSubstate", [Str(substateId)]))
  }

  function SubmitTransaction(s: TariUniverseSigner, req: JsValue): (r: Sent)
    ensures OneIdAllocated(s, r)
    ensures r.call.request.methodName == "submitTransaction" && r.call.request.args == [req]
    ensures Decode(r.call.request) == Some(SubmitTransactionCall(req))
  {
    SendRequest(s, SignerRequest("submitTransaction", [req]))
  }

  function GetTransactionResult(s: TariUniverseSigner, transactionId: string): (r: Sent)
    ensures OneIdAllocated(s, r)
    ensures r.call.request.methodName == "getTransactionResult" && r.call.request.args == [Str(transactionId)]
    ensures Decode(r.call.request) == Some(GetTransactionResultCall(transactionId))
  {
    SendRequest(s, SignerRequest("getTransactionResult", [Str(transactionId)]))
  }

  function GetTemplateDefinition(s: TariUniverseSigner, templateAddress: string): (r: Sent)
    ensures OneIdAllocated(s, r)
    ensures r.call.request.methodName == "getTemplateDefinition" && r.call.request.args == [Str(templateAddress)]
    ensures Decode(r.call.request) == Some(GetTemplateDefinitionCall(templateAddress))
  {
    SendRequest(s, SignerRequest("getTemplateDefinition", [Str(templateAddress)]))
  }

  function GetNftsList(s: TariUniverseSigner, req: JsValue): (r: Sent)
    ensures OneIdAllocated(s, r)
    ensures r.call.request.methodName == "getNftsList" && r.call.request.args == [req]
    ensures Decode(r.call.request) == Some(GetNftsListCall(req))
  {
    SendRequest(s, SignerRequest("getNftsList", [req]))
  }

  function GetNftsFromAccountBalances(s: TariUniverseSigner, req: JsValue): (r: Sent)
    ensures OneIdAllocated(s, r)
    ensures r.call.request.methodName == "getNftsFromAccountBalances" && r.call.request.args == [req]
    ensures Decode(r.call.request) == Some(GetNftsFromAccountBalancesCall(req))
  {
    SendRequest(s, SignerRequest("getNftsFromAccountBalances", [req]))
  }

  /** Calls the public method that `inv` names, with `inv`'s arguments. */
  function Invoke(s: TariUniverseSigner, inv: Invocation): (r: Sent)
    ensures OneIdAllocated(s, r)
    ensures Decode(r.call.request) == Some(inv)
  {
    match inv
    case GetPublicKeyCall => GetPublicKey(s)
    case ListSubstatesCall(template, substateType, limit, offset) =>
      ListSubstates(s, template, substateType, limit, offset)
    case GetConfidentialVaultBalancesCall(viewKeyId, vaultId, min, max) =>
      GetConfidentialVaultBalances(s, viewKeyId, vaultId, min, max)
    case CreateFreeTestCoinsCall => CreateFreeTestCoins(s)
    case RequestParentSizeCall => RequestParentSize(s)
    case GetAccountCall => GetAccount(s)
    case GetAccountBalancesCall(address) => GetAccountBalances(s, address)
    case GetSubstateCall(id) => GetSubstate(s, id)
    case SubmitTransactionCall(req) => SubmitTransaction(s, req)
    case GetTransactionResultCall(id) => GetTransactionResult(s, id)
    case GetTemplateDefinitionCall(address) => GetTemplateDefinition(s, address)
    case GetNftsListCall(req) => GetNftsList(s, req)
    case GetNftsFromAccountBalancesCall(req) => GetNftsFromAccountBalances(s, req)
  }

  /** Two different operations (or the same one with different arguments)
      never produce the same request. */
  lemma DistinctInvocationsDistinctRequests(s: TariUniverseSigner, t: TariUniverseSigner, a: Invocation, b: Invocation)
    requires a != b
    ensures Invoke(s, a).call.request != Invoke(t, b).call.request
  {
  }

  /** Issues the operations one after another on the same signer, returning
      the final signer and the calls sent, in issue order. */
  function IssueAll(s: TariUniverseSigner, invs: seq<Invocation>): (r: (TariUniverseSigner, seq<SignerCall>))
    ensures r.0 == s.(lastId := s.lastId + |invs|)
    ensures |r.1| == |invs|
    ensures forall j :: 0 <= j < |r.1| ==> r.1[j].id == s.lastId + j + 1
    ensures forall j :: 0 <= j < |r.1| ==> Decode(r.1[j].request) == Some(invs[j])
    decreases |invs|
  {
    if |invs| == 0 then (s, [])
    else
      var first := Invoke(s, invs[0]);
      var rest := IssueAll(first.signer, invs[1..]);
      (rest.0, [first.call] + rest.1)
  }

  /** The identifiers a signer issues are strictly increasing in issue order,
      hence pairwise distinct, and all exceed every identifier issued before. */
  lemma IssuedIdsStrictlyIncrease(s: TariUniverseSigner, invs: seq<Invocation>)
    ensures var calls := IssueAll(s, invs).1;
      && (forall i, j :: 0 <= i < j < |calls| ==> calls[i].id < calls[j].id)
      && (forall i, j :: 0 <= i < |calls| && 0 <= j < |calls| && i != j ==> calls[i].id != calls[j].id)
      && (forall i :: 0 <= i < |calls| ==> calls[i].id > s.lastId)
  {
  }

  /** On a fresh signer the first request gets identifier 1, and the n-th
      request gets identifier n. */
  lemma FreshSignerIdsStartAtOne(params: JsValue, invs: seq<Invocation>)
    requires |invs| > 0
    ensures IssueAll(NewSigner(params), invs).1[0].id == 1
    ensures forall j :: 0 <= j < |invs| ==> IssueAll(NewSigner(params), invs).1[j].id == j + 1
  {
  }

  /** The detail of a resize event re-dispatched on the window. */
  datatype ResizeDetail = ResizeDetail(width: JsValue, height: JsValue)

  /** The message filter installed by the constructor: a message produces a
      resize event exactly when its data is an object whose `type` is the
      string "resize"; the event carries the data's width and height as they
      are, absent ones included. */
  function FilterResizeEvent(data: JsValue): (r: Option<ResizeDetail>)
    ensures r.Some? <==> data.Obj? && "type" in data.fields && data.fields["type"] == Str("resize")
    ensures r.Some? ==> r.value.width == Property(data, "width") && r.value.height == Property(data, "height")
  {
    if Truthy(data) && Property(data, "type") == Str("resize") then
      Some(ResizeDetail(Property(data, "width"), Property(data, "height")))
    else
      None
  }

  /** The message a host sends to report the parent window's size. */
  function ResizeMessage(width: int, height: int): JsValue {
    Obj(map["type" := Str("resize"), "width" := Num(width), "height" := Num(height)])
  }

  /** A resize message passes the filter with its size unchanged. */
  lemma ResizeMessageRoundTrip(width: int, height: int)
    ensures FilterResizeEvent(ResizeMessage(width, height)) == Some(ResizeDetail(Num(width), Num(height)))
  {
  }

  /** A response envelope `{id, result, error}` carries no `type` field and is
      never mistaken for a resize signal. */
  lemma ResponseEnvelopeIsNotResize(id: int, result: JsValue, error: JsValue)
    ensures FilterResizeEvent(Obj(map["id" := Num(id), "result" := result, "error" := error])) == None
  {
  }
}
