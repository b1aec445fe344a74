/** The CCIP-Read gateway server of op-gateway-lambda/lambda/src/aws-lambda-ccip-router.ts.
    It matches the other router file except inside `call`: the loops meant to copy the
    function's input and output parameter types iterate with `for..in`, whose loop
    variable is always a string key, behind a `typeof ... !== 'string'` guard, so they
    push nothing (and the second one iterates the inputs and pushes into `inputs`).
    Decoding and encoding therefore always run against an empty type list. */
module LambdaRouter {
  import opened Js
  import opened Externals
  import opened Rpc
  import opened Registry
  import Router

  class ServerLambda {
    /** `this.handlers`: selector text to registered handler. */
    var handlers: map<string, Handler>

    constructor()
      ensures handlers == map[]
    {
      handlers := map[];
    }

    /** `add`, as in the other router file. */
    method Add(lib: Library, abi: Interface, descs: seq<HandlerDescription>) returns (outcome: Completion<()>)
      modifies this
      ensures var n := FirstUnresolved(abi, descs);
        && handlers == Registered(old(handlers), abi, lib.id, descs[..n])
        && (outcome.Normal? <==> n == |descs|)
        && (n < |descs| ==> outcome == Thrown(abi.getFunction(descs[n].signature).error))
      ensures KeyedBySighash(old(handlers), lib.id) ==> KeyedBySighash(handlers, lib.id)
    {
      for i := 0 to |descs|
        invariant AllResolve(abi, descs[..i])
        invariant handlers == Registered(old(handlers), abi, lib.id, descs[..i])
      {
        var fn := abi.getFunction(descs[i].signature);
        if fn.Thrown? {
          FirstUnresolvedAt(abi, descs, i);
          RegisteredKeyedBySighashIfKeyed(old(handlers), abi, lib.id, descs[..i]);
          return Thrown(fn.error);
        }
        handlers := handlers[Sighash(lib.id, fn.value) := Handler(fn.value, descs[i].func)];
        assert descs[..i + 1][..i] == descs[..i];
      }
      assert descs[..|descs|] == descs;
      FirstUnresolvedAt(abi, descs, |descs|);
      RegisteredKeyedBySighashIfKeyed(old(handlers), abi, lib.id, descs);
      return Normal(());
    }

    /** What `call` completes with: the other router file's dispatch, except that the
        decoder and the encoder are handed the empty type list. */
    function CallResult(lib: Library, c: RpcCall): (r: Completion<RpcResponse>)
      reads this
      ensures lib.hexlify(c.data).Thrown? ==> r == Thrown(lib.hexlify(c.data).error)
      ensures r.Normal? ==> r.value.status == 404 || r.value.status == 200
      ensures (r.Normal? && r.value.status == 404) <==>
                lib.hexlify(c.data).Normal? && GetFunctionSelector(lib.hexlify(c.data).value) !in handlers
      ensures r.Normal? && r.value.status == 404 ==>
                r.value == NotFound(GetFunctionSelector(lib.hexlify(c.data).value))
      ensures r.Normal? && r.value.status == 200 ==> r.value.body.Data? && IsHexString(r.value.body.data)
    {
      var calldata :- lib.hexlify(c.data);
      var selector := GetFunctionSelector(calldata);
      if selector !in handlers then Normal(NotFound(selector))
      else
        var handler := handlers[selector];
        var args :- lib.decode([], "0x" + SliceFrom(calldata, 10));
        var result :- handler.func(args, c);
        if handler.fragment.outputs.None? then Normal(RpcResponse(200, Data("0x")))
        else
          var encoded :- lib.encode([], result);
          var data :- lib.hexlify(Str(encoded));
          Normal(RpcResponse(200, Data(data)))
    }

    /** `call`, step by step, with its two parameter-list loops. */
    method Call(lib: Library, c: RpcCall) returns (r: Completion<RpcResponse>)
      ensures r == CallResult(lib, c)
    {
      var hexlified := lib.hexlify(c.data);
      if hexlified.Thrown? {
        return Thrown(hexlified.error);
      }
      var calldata := hexlified.value;
      var selector := GetFunctionSelector(calldata);

      if selector !in handlers {
        return Normal(NotFound(selector));
      }
      var handler := handlers[selector];

      var inputs: seq<ParamType> := [];
      for i := 0 to |handler.fragment.inputs|
        invariant inputs == []
      {
        var key := DecimalString(i);
        if TypeOf(Str(key)) != "string" {
          inputs := inputs + [ParamType(key)];
        }
      }
      var args := lib.decode(inputs, "0x" + SliceFrom(calldata, 10));
      if args.Thrown? {
        return Thrown(args.error);
      }

      var result := handler.func(args.value, c);
      if result.Thrown? {
        return Thrown(result.error);
      }

      var outputs: seq<ParamType> := [];
      for i := 0 to |handler.fragment.inputs|
        invariant inputs == []
      {
        var key := DecimalString(i);
        if TypeOf(Str(key)) != "string" {
          inputs := inputs + [ParamType(key)];
        }
      }

      if handler.fragment.outputs.None? {
        return Normal(RpcResponse(200, Data("0x")));
      }
      var encoded := lib.encode(outputs, result.value);
      if encoded.Thrown? {
        return Thrown(encoded.error);
      }
      var data := lib.hexlify(Str(encoded.value));
      if data.Thrown? {
        return Thrown(data.error);
      }
      return Normal(RpcResponse(200, Data(data.value)));
    }

    /** GET '': the liveness route. */
    function RootRoute(): (r: FunctionResponse)
      ensures r == OkResponse("hey ho!") && r.StatusCode() == 200
    {
      OkResponse("hey ho!")
    }

    /** GET ':sender/:callData.json'. */
    method GetRoute(lib: Library, sender: string, callData: string) returns (r: FunctionResponse)
      ensures r.StatusCode() == 400 <==> !Acceptable(lib, Str(sender), Str(callData))
      ensures !Acceptable(lib, Str(sender), Str(callData)) ==> r == ErrorResponse(400)
      ensures r.StatusCode() == 500 <==>
                Acceptable(lib, Str(sender), Str(callData)) && CallResult(lib, RpcCall(Str(sender), Str(callData))).Thrown?
      ensures Acceptable(lib, Str(sender), Str(callData)) ==>
                r == Respond(CallResult(lib, RpcCall(Str(sender), Str(callData))))
    {
      var to, data := Str(sender), Str(callData);
      if !Acceptable(lib, to, data) {
        return ErrorResponse(400);
      }
      var response := Call(lib, RpcCall(to, data));
      return Respond(response);
    }

    /** POST '': `JSON.parse` and the property reads sit outside the `try`. */
    method PostRoute(lib: Library, body: string) returns (r: Completion<FunctionResponse>)
      ensures r.Thrown? <==>
                lib.jsonParse(body).Thrown? || lib.jsonParse(body).value.Null? || lib.jsonParse(body).value.Undefined?
      ensures lib.jsonParse(body).Thrown? ==> r == Thrown(lib.jsonParse(body).error)
      ensures r.Normal? ==>
                var v := lib.jsonParse(body).value;
                && (r.value.StatusCode() == 400 <==> !Acceptable(lib, Field(v, "sender"), Field(v, "data")))
                && (r.value.StatusCode() == 500 <==>
                      Acceptable(lib, Field(v, "sender"), Field(v, "data")) &&
                      CallResult(lib, RpcCall(Field(v, "sender"), Field(v, "data"))).Thrown?)
                && (Acceptable(lib, Field(v, "sender"), Field(v, "data")) ==>
                      r.value == Respond(CallResult(lib, RpcCall(Field(v, "sender"), Field(v, "data")))))
    {
      var requestBody := lib.jsonParse(body);
      if requestBody.Thrown? {
        return Thrown(requestBody.error);
      }
      var sender := GetProperty(requestBody.value, "sender");
      if sender.Thrown? {
        return Thrown(sender.error);
      }
      var callData := Field(requestBody.value, "data");
      if !Acceptable(lib, sender.value, callData) {
        return Normal(ErrorResponse(400));
      }
      var response := Call(lib, RpcCall(sender.value, callData));
      return Normal(Respond(response));
    }
  }

  /** Only the empty type list ever reaches the ABI coder: any decoder and encoder
      that agree with the given ones on the empty list yield the same response,
      whatever inputs and outputs the stored function declares. */
  lemma CallResultUsesEmptyTypeLists(s: ServerLambda, lib: Library, c: RpcCall,
                                     decode: (seq<ParamType>, string) -> Completion<seq<AbiValue>>,
                                     encode: (seq<ParamType>, seq<AbiValue>) -> Completion<string>)
    requires forall data :: decode([], data) == lib.decode([], data)
    requires forall values :: encode([], values) == lib.encode([], values)
    ensures s.CallResult(lib.(decode := decode, encode := encode), c) == s.CallResult(lib, c)
  {
    var lib' := lib.(decode := decode, encode := encode);
    if lib.hexlify(c.data).Normal? {
      var calldata := lib.hexlify(c.data).value;
      assert decode([], "0x" + SliceFrom(calldata, 10)) == lib.decode([], "0x" + SliceFrom(calldata, 10));
      var sel := GetFunctionSelector(calldata);
      if sel in s.handlers {
        var args := lib.decode([], "0x" + SliceFrom(calldata, 10));
        if args.Normal? {
          var result := s.handlers[sel].func(args.value, c);
          if result.Normal? {
            assert encode([], result.value) == lib.encode([], result.value);
          }
        }
      }
    }
  }

  /** Once the selector is found: the handler runs on what the decoder makes of the
      calldata after the selector against the empty type list, and decode and
      handler failures leave as the same exception; a result becomes `0x` when
      `outputs` is missing, and otherwise the hexlified encoding against the empty
      type list, whose own failures also leave. */
  lemma CallResultRunsStoredHandler(s: ServerLambda, lib: Library, c: RpcCall)
    requires lib.hexlify(c.data).Normal?
    requires GetFunctionSelector(lib.hexlify(c.data).value) in s.handlers
    ensures var calldata := lib.hexlify(c.data).value;
            var h := s.handlers[GetFunctionSelector(calldata)];
            var args := lib.decode([], "0x" + SliceFrom(calldata, 10));
            && (args.Thrown? ==> s.CallResult(lib, c) == Thrown(args.error))
            && (args.Normal? ==>
                  var result := h.func(args.value, c);
                  && (result.Thrown? ==> s.CallResult(lib, c) == Thrown(result.error))
                  && (result.Normal? && h.fragment.outputs.None? ==>
                        s.CallResult(lib, c) == Normal(RpcResponse(200, Data("0x"))))
                  && (result.Normal? && h.fragment.outputs.Some? ==>
                        var encoded := lib.encode([], result.value);
                        && (encoded.Thrown? ==> s.CallResult(lib, c) == Thrown(encoded.error))
                        && (encoded.Normal? && lib.hexlify(Str(encoded.value)).Thrown? ==>
                              s.CallResult(lib, c) == Thrown(lib.hexlify(Str(encoded.value)).error))
                        && (encoded.Normal? && lib.hexlify(Str(encoded.value)).Normal? ==>
                              s.CallResult(lib, c) == Normal(RpcResponse(200, Data(lib.hexlify(Str(encoded.value)).value))))))
  {
  }

  /** The two router files answer alike when every stored function takes no inputs
      and its `outputs` is missing or empty, where the empty list is right. */
  lemma VariantsAgreeWithoutParameters(a: Router.ServerLambda, b: ServerLambda, lib: Library, c: RpcCall)
    requires a.handlers == b.handlers
    requires forall k | k in a.handlers ::
               a.handlers[k].fragment.inputs == [] &&
               (a.handlers[k].fragment.outputs.None? || a.handlers[k].fragment.outputs.value == [])
    ensures a.Call(lib, c) == b.CallResult(lib, c)
  {
  }

  /** An example of the difference: a function `f(uint256)` returning `uint256`, a
      handler that returns its arguments, and a coder that decodes one value per type
      and encodes a non-empty list as `0x01`. The other router file hands the
      handler the decoded argument and answers `0x01`; this one hands it nothing and
      answers `0x`. */
  const ExampleSelector: string := "0x12345678"

  const ExampleFragment: FunctionFragment :=
    FunctionFragment("f", [ParamType("uint256")], Some([ParamType("uint256")]))

  /** The selector followed by the 32-byte word 1. */
  const ExampleCalldata: string :=
    ExampleSelector + seq(64, i => if i == 63 then '1' else '0')

  function Echo(args: seq<AbiValue>, c: RpcCall): Completion<seq<AbiValue>> {
    Normal(args)
  }

  function ExampleHexlify(v: JsValue): Completion<HexString> {
    if v.Str? && IsHexString(v.s) then Normal(v.s) else Thrown(Exception("invalid hexlify value"))
  }

  function ExampleDecode(types: seq<ParamType>, data: string): Completion<seq<AbiValue>> {
    Normal(seq(|types|, _ => Uint(1)))
  }

  function ExampleEncode(types: seq<ParamType>, values: seq<AbiValue>): Completion<string> {
    Normal(if values == [] then "0x" else "0x01")
  }

  const ExampleLibrary: Library := Library(
    ExampleHexlify,
    _ => true,
    _ => true,
    _ => ExampleSelector + seq(56, _ => '0'),
    ExampleDecode,
    ExampleEncode,
    _ => Thrown(Exception("unused")))

  lemma ExampleCalldataIsHex()
    ensures IsHexString(ExampleCalldata)
    ensures GetFunctionSelector(ExampleCalldata) == ExampleSelector
    ensures SliceFrom(ExampleCalldata, 10) == ExampleCalldata[10..]
  {
    var calldata := ExampleCalldata;
    assert calldata[..2] == "0x";
    assert forall i | 2 <= i < |calldata| :: IsHexDigit(calldata[i]);
    var sel := GetFunctionSelector(calldata);
    assert forall i | 0 <= i < 10 :: sel[i] == ExampleSelector[i];
  }

  /** The example dictionary is one `add` could build with the example library:
      its one entry sits under its function's sighash. */
  lemma ExampleRegistryKeyedBySighash()
    ensures KeyedBySighash(map[ExampleSelector := Handler(ExampleFragment, Echo)], ExampleLibrary.id)
  {
    var d := ExampleLibrary.id(Signature(ExampleFragment));
    assert d[..10] == ExampleSelector;
  }

  lemma LambdaHandlerGetsNoArguments(a: Router.ServerLambda, b: ServerLambda)
    requires a.handlers == b.handlers == map[ExampleSelector := Handler(ExampleFragment, Echo)]
    ensures a.Call(ExampleLibrary, RpcCall(Str("0x"), Str(ExampleCalldata))) == Normal(RpcResponse(200, Data("0x01")))
    ensures b.CallResult(ExampleLibrary, RpcCall(Str("0x"), Str(ExampleCalldata))) == Normal(RpcResponse(200, Data("0x")))
  {
    var lib, c := ExampleLibrary, RpcCall(Str("0x"), Str(ExampleCalldata));
    ExampleCalldataIsHex();
    assert lib.hexlify(c.data) == Normal(ExampleCalldata);
    assert ExampleSelector in a.handlers;
    var payload := "0x" + SliceFrom(ExampleCalldata, 10);
    assert seq(1, _ => Uint(1)) == [Uint(1)];
    assert lib.decode(ExampleFragment.inputs, payload) == Normal([Uint(1)]);
    assert Echo([Uint(1)], c) == Normal([Uint(1)]);
    assert lib.encode([ParamType("uint256")], [Uint(1)]) == Normal("0x01");
    assert IsHexString("0x01");
    assert lib.hexlify(Str("0x01")) == Normal("0x01");
    assert seq(0, _ => Uint(1)) == [];
    assert lib.decode([], payload) == Normal([]);
    assert Echo([], c) == Normal([]);
    assert lib.encode([], []) == Normal("0x");
    assert IsHexString("0x");
    assert lib.hexlify(Str("0x")) == Normal("0x");
  }
}
