/** `propsDecoderAWS` of op-gateway-lambda/src/index.ts: the tracking properties of
    a REST API Gateway event, read from its `path` with the pattern and slices
    of `PathProps`. */
module Index {
  import opened Js
  import opened Externals
  import opened PathProps

  /** The part of `APIGatewayProxyEvent` the decoder reads. */
  datatype ApiGatewayEvent = ApiGatewayEvent(path: string)

  /** `{}` for a missing request or an empty `path`, and otherwise the props of
      the first tracked substring of `path`; the response text is not consulted. */
  function PropsDecoderAWS(request: Option<ApiGatewayEvent>, response: Option<string>): (r: Props)
    ensures request.None? ==> r == NoProps
    ensures request.Some? && request.value.path == [] ==> r == NoProps
    ensures request.Some? ==> (r.NoProps? <==> !Matches(request.value.path))
    // the sender and calldata are characters of the first match
    ensures request.Some? && r.Props? ==>
              var path := request.value.path;
              && FirstMatch(path, 0).Some?
              && var i, n := FirstMatch(path, 0).value.0, FirstMatch(path, 0).value.1;
                 r == Props(path[i + 1..i + 42], path[i + 44..i + n - 5])
    ensures r.Props? ==> |r.sender| == 41 && IsPrefixedHex(r.sender, 39) && IsPrefixedHex(r.calldata, 1)
  {
    if request.None? then NoProps
    else
      var path := request.value.path;
      DecodeEmptyIffNoMatch(path);
      DecodeShape(path);
      if path == [] then NoProps else Decode(path)
  }

  /** A request for `sender` and `calldata` is recorded with the sender's last
      address digit missing, whatever the response. */
  lemma TrackedRequestLosesDigit(sender: string, calldata: string, response: Option<string>)
    requires IsPrefixedHex(sender, 40) && |sender| == 42 && IsPrefixedHex(calldata, 1)
    ensures PropsDecoderAWS(Some(ApiGatewayEvent(TrackedPath(sender, calldata))), response) == Props(sender[..41], calldata)
  {
    DecodeDropsLastAddressDigit(sender, calldata);
  }
}
