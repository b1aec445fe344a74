/** `propsDecoderAWS` of op-gateway-lambda/lambda/src/index.ts: the tracking properties of
    an HTTP API (payload version 2.0) Gateway event, read from its `rawPath` with the pattern and slices
    of `PathProps`. */
module LambdaIndex {
  import opened Js
  import opened Externals
  import opened PathProps

  /** The part of `APIGatewayProxyEventV2` the decoder reads. */
  datatype ApiGatewayEventV2 = ApiGatewayEventV2(rawPath: string)

  /** `{}` for a missing request or an empty `rawPath`, and otherwise the props of
      the first tracked substring of `rawPath`; the response text is not consulted. */
  function PropsDecoderAWS(request: Option<ApiGatewayEventV2>, response: Option<string>): (r: Props)
    ensures request.None? ==> r == NoProps
    ensures request.Some? && request.value.rawPath == [] ==> r == NoProps
    ensures request.Some? ==> (r.NoProps? <==> !Matches(request.value.rawPath))
    // the sender and calldata are characters of the first match
    ensures request.Some? && r.Props? ==>
              var path := request.value.rawPath;
              && FirstMatch(path, 0).Some?
              && var i, n := FirstMatch(path, 0).value.0, FirstMatch(path, 0).value.1;
                 r == Props(path[i + 1..i + 42], path[i + 44..i + n - 5])
    ensures r.Props? ==> |r.sender| == 41 && IsPrefixedHex(r.sender, 39) && IsPrefixedHex(r.calldata, 1)
  {
    if request.None? then NoProps
    else
      var path := request.value.rawPath;
      DecodeEmptyIffNoMatch(path);
      DecodeShape(path);
      if path == [] then NoProps else Decode(path)
  }

  /** A request for `sender` and `calldata` is recorded with the sender's last
      address digit missing, whatever the response. */
  lemma TrackedRequestLosesDigit(sender: string, calldata: string, response: Option<string>)
    requires IsPrefixedHex(sender, 40) && |sender| == 42 && IsPrefixedHex(calldata, 1)
    ensures PropsDecoderAWS(Some(ApiGatewayEventV2(TrackedPath(sender, calldata))), response) == Props(sender[..41], calldata)
  {
    DecodeDropsLastAddressDigit(sender, calldata);
  }
}
