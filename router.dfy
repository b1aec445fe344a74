/** The CCIP-Read gateway server of op-gateway-lambda/src/aws-lambda-ccip-router.ts:
    a dictionary from function selector to handler, the dispatcher `call`, and the
    three routes `makeApp` installs (liveness GET, GET `/:sender/:callData.json`, and
    POST with a JSON body). */
module Router {
  import opened Js
  import opened Externals
  import opened Rpc
  import opened Registry

  class ServerLambda {
    /** `this.handlers`: selector text to registered handler. */
    var handlers: map<string, Handler>

    constructor()
      ensures handlers == map[]
    {
      handlers := map[];
    }

    /** `add`: resolves each description against the interface and writes it under
        the sighash of its function, in order; duplicates overwrite. A description
        that does not resolve throws out of the loop, keeping what was written. */
    method Add(lib: Library, abi: Interface, descs: seq<HandlerDescription>) returns (outcome: Completion<()>)
      modifies this
      ensures var n := FirstUnresolved(abi, descs);
        && handlers == Registered(old(handlers), abi, lib.id, descs[..n])
        && (outcome.Normal? <==> n == |descs|)
        && (n < |descs| ==> outcome == Thrown(abi.getFunction(descs[n].signature).error))
      ensures KeyedBySighash(old(handlers), lib.id) ==> KeyedBySighash(handlers, lib.id)
    {
      for i := 0 to |descs|
        invariant AllResolve(abi, descs[..i])
        invariant handlers == Registered(old(handlers), abi, lib.id, descs[..i])
      {
        var fn := abi.getFunction(descs[i].signature);
        if fn.Thrown? {
          FirstUnresolvedAt(abi, descs, i);
          RegisteredKeyedBySighashIfKeyed(old(handlers), abi, lib.id, descs[..i]);
          return Thrown(fn.error);
        }
        handlers := handlers[Sighash(lib.id, fn.value) := Handler(fn.value, descs[i].func)];
        assert descs[..i + 1][..i] == descs[..i];
      }
      assert descs[..|descs|] == descs;
      FirstUnresolvedAt(abi, descs, |descs|);
      RegisteredKeyedBySighashIfKeyed(old(handlers), abi, lib.id, descs);
      return Normal(());
    }

    /** `call`: hexlifies the calldata, looks the selector up, decodes the bytes after
        the selector against the function's inputs, runs the handler and encodes its
        result against the function's outputs. Exceptions propagate. */
    function Call(lib: Library, c: RpcCall): (r: Completion<RpcResponse>)
      reads this
      // a hexlify failure propagates
      ensures lib.hexlify(c.data).Thrown? ==> r == Thrown(lib.hexlify(c.data).error)
      // the only statuses are 404 and 200
      ensures r.Normal? ==> r.value.status == 404 || r.value.status == 200
      // 404 exactly when no handler is stored under the selector, with only the message
      ensures (r.Normal? && r.value.status == 404) <==>
                lib.hexlify(c.data).Normal? && GetFunctionSelector(lib.hexlify(c.data).value) !in handlers
      ensures r.Normal? && r.value.status == 404 ==>
                r.value == NotFound(GetFunctionSelector(lib.hexlify(c.data).value))
      // 200 carries only `data`, `0x` or a hexlified encoding
      ensures r.Normal? && r.value.status == 200 ==> r.value.body.Data? && IsHexString(r.value.body.data)
    {
      var calldata :- lib.hexlify(c.data);
      var selector := GetFunctionSelector(calldata);
      if selector !in handlers then Normal(NotFound(selector))
      else
        var handler := handlers[selector];
        var args :- lib.decode(handler.fragment.inputs, "0x" + SliceFrom(calldata, 10));
        var result :- handler.func(args, c);
        match handler.fragment.outputs
        case None => Normal(RpcResponse(200, Data("0x")))
        case Some(outputs) =>
          var encoded :- lib.encode(outputs, result);
          var data :- lib.hexlify(Str(encoded));
          Normal(RpcResponse(200, Data(data)))
    }

    /** GET '': the liveness route. */
    function RootRoute(): (r: FunctionResponse)
      ensures r == OkResponse("hey ho!") && r.StatusCode() == 200
    {
      OkResponse("hey ho!")
    }

    /** GET '/:sender/:callData.json'. */
    function GetRoute(lib: Library, sender: string, callData: string): (r: FunctionResponse)
      reads this
      // 400 exactly when validation fails, and then `call` is not consulted
      ensures r.StatusCode() == 400 <==> !Acceptable(lib, Str(sender), Str(callData))
      ensures !Acceptable(lib, Str(sender), Str(callData)) ==> r == ErrorResponse(400)
      // 500 exactly when `call` throws
      ensures r.StatusCode() == 500 <==>
                Acceptable(lib, Str(sender), Str(callData)) && Call(lib, RpcCall(Str(sender), Str(callData))).Thrown?
      ensures Acceptable(lib, Str(sender), Str(callData)) ==>
                r == Respond(Call(lib, RpcCall(Str(sender), Str(callData))))
    {
      var to, data := Str(sender), Str(callData);
      if !Acceptable(lib, to, data) then ErrorResponse(400)
      else Respond(Call(lib, RpcCall(to, data)))
    }

    /** POST '': `JSON.parse` and the property reads sit outside the `try`, so their
        exceptions leave the route. */
    function PostRoute(lib: Library, body: string): (r: Completion<FunctionResponse>)
      reads this
      ensures r.Thrown? <==>
                lib.jsonParse(body).Thrown? || lib.jsonParse(body).value.Null? || lib.jsonParse(body).value.Undefined?
      ensures lib.jsonParse(body).Thrown? ==> r == Thrown(lib.jsonParse(body).error)
      ensures r.Normal? ==>
                var v := lib.jsonParse(body).value;
                && (r.value.StatusCode() == 400 <==> !Acceptable(lib, Field(v, "sender"), Field(v, "data")))
                && (r.value.StatusCode() == 500 <==>
                      Acceptable(lib, Field(v, "sender"), Field(v, "data")) &&
                      Call(lib, RpcCall(Field(v, "sender"), Field(v, "data"))).Thrown?)
                && (Acceptable(lib, Field(v, "sender"), Field(v, "data")) ==>
                      r.value == Respond(Call(lib, RpcCall(Field(v, "sender"), Field(v, "data")))))
    {
      var requestBody :- lib.jsonParse(body);
      var sender :- GetProperty(requestBody, "sender");
      // `requestBody` is neither null nor undefined once `.sender` was read
      var callData := Field(requestBody, "data");
      if !Acceptable(lib, sender, callData) then Normal(ErrorResponse(400))
      else Normal(Respond(Call(lib, RpcCall(sender, callData))))
    }
  }

  /** The stored handler runs on arguments decoded from `0x` and the calldata after
      its first 10 characters (the bytes after the 4-byte selector), against the
      stored function's inputs: any decoder that agrees there yields the same
      response. When the dictionary is keyed by sighash, the function that runs is
      one whose sighash is the calldata's selector. */
  lemma CallDecodesBytesAfterSelector(s: ServerLambda, lib: Library, c: RpcCall,
                                      decode: (seq<ParamType>, string) -> Completion<seq<AbiValue>>)
    requires KeyedBySighash(s.handlers, lib.id)
    requires lib.hexlify(c.data).Normal?
    requires GetFunctionSelector(lib.hexlify(c.data).value) in s.handlers
    requires var calldata := lib.hexlify(c.data).value;
             var inputs := s.handlers[GetFunctionSelector(calldata)].fragment.inputs;
             decode(inputs, "0x" + SliceFrom(calldata, 10)) == lib.decode(inputs, "0x" + SliceFrom(calldata, 10))
    ensures var calldata := lib.hexlify(c.data).value;
            && |calldata| >= 10
            && SliceFrom(calldata, 10) == calldata[10..]
            && Sighash(lib.id, s.handlers[GetFunctionSelector(calldata)].fragment) == ToLower(calldata[..10])
    ensures s.Call(lib.(decode := decode), c) == s.Call(lib, c)
  {
    var calldata := lib.hexlify(c.data).value;
    var sel := GetFunctionSelector(calldata);
    assert sel == Sighash(lib.id, s.handlers[sel].fragment);
    SelectorMatchesKey(calldata, sel);
  }

  /** A decode failure is not caught by `call`: it leaves as the same exception. */
  lemma CallPropagatesDecodeFailure(s: ServerLambda, lib: Library, c: RpcCall)
    requires lib.hexlify(c.data).Normal?
    requires var calldata := lib.hexlify(c.data).value;
             var sel := GetFunctionSelector(calldata);
             sel in s.handlers && lib.decode(s.handlers[sel].fragment.inputs, "0x" + SliceFrom(calldata, 10)).Thrown?
    ensures var calldata := lib.hexlify(c.data).value;
            var sel := GetFunctionSelector(calldata);
            s.Call(lib, c) == Thrown(lib.decode(s.handlers[sel].fragment.inputs, "0x" + SliceFrom(calldata, 10)).error)
  {
  }

  /** Once the arguments decode: a handler failure leaves as the same exception; a
      result becomes `0x` when `outputs` is missing (falsy), and otherwise, an empty
      list included, the hexlified encoding against the outputs, whose own failures
      also leave. */
  lemma CallRunsStoredHandler(s: ServerLambda, lib: Library, c: RpcCall, args: seq<AbiValue>)
    requires lib.hexlify(c.data).Normal?
    requires var calldata := lib.hexlify(c.data).value;
             var sel := GetFunctionSelector(calldata);
             sel in s.handlers && lib.decode(s.handlers[sel].fragment.inputs, "0x" + SliceFrom(calldata, 10)) == Normal(args)
    ensures var h := s.handlers[GetFunctionSelector(lib.hexlify(c.data).value)];
            var result := h.func(args, c);
            && (result.Thrown? ==> s.Call(lib, c) == Thrown(result.error))
            && (result.Normal? && h.fragment.outputs.None? ==> s.Call(lib, c) == Normal(RpcResponse(200, Data("0x"))))
            && (result.Normal? && h.fragment.outputs.Some? ==>
                  var encoded := lib.encode(h.fragment.outputs.value, result.value);
                  && (encoded.Thrown? ==> s.Call(lib, c) == Thrown(encoded.error))
                  && (encoded.Normal? && lib.hexlify(Str(encoded.value)).Thrown? ==>
                        s.Call(lib, c) == Thrown(lib.hexlify(Str(encoded.value)).error))
                  && (encoded.Normal? && lib.hexlify(Str(encoded.value)).Normal? ==>
                        s.Call(lib, c) == Normal(RpcResponse(200, Data(lib.hexlify(Str(encoded.value)).value)))))
  {
  }

  /** A JSON body `{ "sender": s, "data": d }` is answered as GET `/s/d.json` is. */
  lemma PostAgreesWithGet(s: ServerLambda, lib: Library, body: string, sender: string, callData: string)
    requires lib.jsonParse(body).Normal?
    requires lib.jsonParse(body).value == Obj(map["sender" := Str(sender), "data" := Str(callData)])
    ensures s.PostRoute(lib, body) == Normal(s.GetRoute(lib, sender, callData))
  {
  }
}
