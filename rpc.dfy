/** The protocol-level types shared by both router files: the call and response of
    the CCIP-Read gateway interface (section "Gateway Interface" of EIP-3668), the
    handler registry entries, the HTTP responses the routes produce, and the two
    pure steps every route takes (selector extraction and status mapping). */
module Rpc {
  import opened Js
  import opened Externals

  /** `{ to, data }` as the routes build it from the request. */
  datatype RpcCall = RpcCall(to: JsValue, data: JsValue)

  /** `{ data }` on success, `{ message }` on an error. */
  datatype ResponseBody = Data(data: string) | Message(message: string)

  datatype RpcResponse = RpcResponse(status: int, body: ResponseBody)

  /** A handler: decoded arguments and the call in, return values out, or a throw
      (a rejected promise). */
  type HandlerFunc = (seq<AbiValue>, RpcCall) -> Completion<seq<AbiValue>>

  /** What a caller of `add` supplies: a function name or signature and its handler. */
  datatype HandlerDescription = HandlerDescription(signature: string, func: HandlerFunc)

  /** A registry entry: the resolved function and its handler. */
  datatype Handler = Handler(fragment: FunctionFragment, func: HandlerFunc)

  /** The responses a route hands back to the router. `OkResponse` and
      `ErrorResponse` stand for the router's own `okResponse` and `errorResponse`
      helpers, whose headers and body text belong to the router. */
  datatype FunctionResponse =
    | OkResponse(text: string)
    | ErrorResponse(code: int)
    | JsonResponse(statusCode: int, headers: map<string, string>, body: ResponseBody)
  {
    function StatusCode(): int {
      match this
      case OkResponse(_) => 200
      case ErrorResponse(code) => code
      case JsonResponse(code, _, _) => code
    }
  }

  const JsonHeaders: map<string, string> := map["Content-Type" := "application/json"]

  const NotFoundPrefix: string := "No implementation for function with selector "

  /** `getFunctionSelector`: the first 10 characters (`0x` and 4 bytes) of the
      hexlified calldata, lower-cased. */
  function GetFunctionSelector(calldata: string): (r: string)
    ensures |r| == Min(10, |calldata|)
    ensures forall i | 0 <= i < |r| :: r[i] == LowerChar(calldata[i])
    ensures IsHexString(calldata) && |calldata| >= 10 ==> IsSelector(r)
  {
    var r := ToLower(Slice(calldata, 0, 10));
    assert IsHexString(calldata) && |calldata| >= 10 ==> r[..2] == "0x" by {
      if IsHexString(calldata) && |calldata| >= 10 {
        assert calldata[0] == '0' && calldata[1] == 'x';
      }
    }
    r
  }

  /** The selector of hexlified calldata equals a registry key exactly when the
      calldata's first 10 characters, lower-cased, are that key. */
  lemma SelectorMatchesKey(calldata: string, key: string)
    requires IsSelector(key)
    ensures GetFunctionSelector(calldata) == key <==> |calldata| >= 10 && ToLower(calldata[..10]) == key
  {
    var sel := GetFunctionSelector(calldata);
    if |calldata| >= 10 {
      assert sel == ToLower(calldata[..10]);
    }
  }

  /** The 404 answer for a selector nothing is registered under. */
  function NotFound(selector: string): (r: RpcResponse)
    ensures r.status == 404 && r.body.Message?
    ensures |r.body.message| == |NotFoundPrefix| + |selector|
    ensures r.body.message[..|NotFoundPrefix|] == NotFoundPrefix
    ensures r.body.message[|NotFoundPrefix|..] == selector
  {
    RpcResponse(404, Message(NotFoundPrefix + selector))
  }

  /** The `try`/`catch` around `call` in both non-liveness routes: an exception
      becomes a bare 500; otherwise the response's status and JSON body pass
      through with a JSON content type. */
  function Respond(c: Completion<RpcResponse>): (r: FunctionResponse)
    ensures c.Thrown? ==> r == ErrorResponse(500)
    ensures c.Normal? ==> r.StatusCode() == c.value.status
    ensures c.Normal? ==> r.JsonResponse? && "Content-Type" in r.headers && r.headers["Content-Type"] == "application/json"
    ensures c.Normal? ==> r.JsonResponse? && r.body == c.value.body
  {
    match c
    case Thrown(_) => ErrorResponse(500)
    case Normal(response) => JsonResponse(response.status, JsonHeaders, response.body)
  }

  /** The check both non-liveness routes make before calling: an address and
      bytes-like calldata. */
  predicate Acceptable(lib: Library, sender: JsValue, callData: JsValue) {
    lib.isAddress(sender) && lib.isBytesLike(callData)
  }
}
