# CCIP-Read gateway (op-gateway-lambda) in Dafny

This project models the request-serving core of the op-gateway-lambda CCIP-Read
gateway (EIP-3668, section "Gateway Interface"), together with the proofs of what
it does. A contract that needs off-chain data reverts with a URL. The client then
asks the gateway either `GET <prefix>/<sender>/<calldata>.json` or `POST <prefix>`
with `{ "sender", "data" }`. The gateway takes the 4-byte function selector from the
calldata and looks it up among its registered handlers. It ABI-decodes the
remaining bytes, runs the handler, and answers with the ABI-encoded result.

The repository has two near-identical copies of the server, and the model has one
module for each:

- `Router` models `op-gateway/op-gateway-lambda/src/aws-lambda-ccip-router.ts`.
- `LambdaRouter` models `op-gateway/op-gateway-lambda/lambda/src/aws-lambda-ccip-router.ts`.
  In this copy, `call` builds its decoder and encoder type lists with `for..in`
  loops that push nothing.

Each module has a class `ServerLambda`, whose `handlers` field is the dictionary
that `add` updates in place. In both modules:

- `Add` is a loop method, proved against the specification function
  `Registry.Registered`.
- The lambda copy's `Call`, `GetRoute` and `PostRoute` keep the source's
  step-by-step shape as methods. `Call` is proved equal to the function `CallResult`.
- The other copy's `call` and routes are straight-line, so they are functions.

Module `PathProps` models the tracking decoder `propsDecoderAWS` that both
`index.ts` files share. It gives the pattern `/0x<40 hex>/0x<1 or more hex>.json`
twice: as a declarative language (`InPattern`), and as the leftmost, greedy scan a
regular-expression engine makes (`MatchAt`, `FirstMatch`). The two are proved to
agree. Then come the slices `slice(1, 42)` and `slice(44).replace('.json', '')`.
Modules `Index` and `LambdaIndex` are the two decoders, over `path` and `rawPath`
respectively.

The gateway's external library calls are collected in an `Externals.Library` value
that every operation takes as a parameter. These are ethers' `hexlify`, `isAddress`,
`isBytesLike`, `id` (keccak-256), the ABI coder's `decode` and `encode`, and
`JSON.parse`. Every result is stated for whatever library is passed in. The only
facts assumed about the library are in its types:

- `hexlify` yields `0x` and hex digits;
- `id` yields `0x` and 64 lower-case hex digits.

Exceptions are `Js.Completion` values. A thrown exception propagates through `:-`,
as it does through `await` and through calls in the source.

Where the code and its design description differ, the model follows the code:

- Registering a selector twice overwrites the earlier handler. It does not fail
  (`Registry.RegisteredLastWins`, `Registry.DuplicateOverwrites`).
- A decode, handler or encode failure is an exception out of `call`. The route
  turns it into a bare `errorResponse(500)`. There is no `{ message }` body and no
  400 for a decode failure (`Router.CallPropagatesDecodeFailure`,
  `Router.ServerLambda.GetRoute`).
- Nothing checks that the calldata holds at least 4 bytes. Short calldata only
  yields a short selector, which no key matches.
- A malformed POST body is not turned into a 400. `JSON.parse` sits outside the
  `try`, so its exception leaves the route (`Router.ServerLambda.PostRoute`).

## Model

| member | source | states |
|---|---|---|
| Rpc.GetFunctionSelector | op-gateway/op-gateway-lambda/src/aws-lambda-ccip-router.ts:52-54 | the selector has min(10, length) characters, each the lower-cased character of the calldata at the same place; for `0x`-hex calldata of at least 10 characters it is a lower-case 4-byte selector; the lambda copy (lambda/src/aws-lambda-ccip-router.ts:50-52) is the same function |
| Rpc.SelectorMatchesKey | op-gateway/op-gateway-lambda/src/aws-lambda-ccip-router.ts:161-165 | the lookup hits a stored selector key exactly when the calldata has at least 10 characters and its first 10, lower-cased, are that key |
| Rpc.NotFound | op-gateway/op-gateway-lambda/src/aws-lambda-ccip-router.ts:166-173 | status 404 with only a `message`, which is "No implementation for function with selector " followed by the selector |
| Rpc.Respond | op-gateway/op-gateway-lambda/src/aws-lambda-ccip-router.ts:120-132 | an exception from `call` becomes `errorResponse(500)`; otherwise the status code is `response.status`, the content type is `application/json`, and the body is `response.body` |
| Externals.Sighash | op-gateway/op-gateway-lambda/src/aws-lambda-ccip-router.ts:82 | `Interface.getSighash` is a lower-case 4-byte selector: the first 10 characters of keccak-256 of the canonical signature |
| Externals.SighashIgnoresOutputs | op-gateway/op-gateway-lambda/src/aws-lambda-ccip-router.ts:82 | functions that differ only in their outputs share a selector, so a later one overwrites an earlier one |
| Registry.Registered | op-gateway/op-gateway-lambda/src/aws-lambda-ccip-router.ts:79-86 | the dictionary after writing each resolved description in order: no key is removed, every description's sighash is a key, and the last description's entry is what its key holds |
| Registry.FirstUnresolved | op-gateway/op-gateway-lambda/src/aws-lambda-ccip-router.ts:79-80 | the number of leading descriptions that `getFunction` resolves: all before it resolve, and the one at it (if any) throws |
| Registry.FirstUnresolvedAt | op-gateway/op-gateway-lambda/src/aws-lambda-ccip-router.ts:79-80 | the place where the `add` loop stops is determined by which descriptions resolve |
| Registry.RegisteredDomain | op-gateway/op-gateway-lambda/src/aws-lambda-ccip-router.ts:79-86 | after registering, a key is present exactly when it was before or some description resolves to it; a key that no description names keeps its entry |
| Registry.RegisteredLastWins | op-gateway/op-gateway-lambda/src/aws-lambda-ccip-router.ts:82-85 | the entry under a selector is the resolved function and the handler of the last description with that selector |
| Registry.DuplicateOverwrites | op-gateway/op-gateway-lambda/src/aws-lambda-ccip-router.ts:82-85 | two descriptions with the same selector leave only the second, without error |
| Registry.RegisteredKeyedBySighash | op-gateway/op-gateway-lambda/src/aws-lambda-ccip-router.ts:82 | registering keeps every entry under the sighash of its own function, so every key is a 4-byte selector |
| Router.ServerLambda.constructor | op-gateway/op-gateway-lambda/src/aws-lambda-ccip-router.ts:63-65 | a new server has no handlers |
| Router.ServerLambda.Add | op-gateway/op-gateway-lambda/src/aws-lambda-ccip-router.ts:73-87 | the handlers become the old ones with each resolved description written in order under its sighash; an unresolvable description throws its `getFunction` exception, and the entries written before it remain; keying by sighash is preserved |
| Router.ServerLambda.Call | op-gateway/op-gateway-lambda/src/aws-lambda-ccip-router.ts:160-206 | a `hexlify` exception propagates; the only statuses are 404 and 200; 404 occurs exactly when no handler is stored under the selector, with the not-found message; 200 carries only `data`, a hex string |
| Router.CallDecodesBytesAfterSelector | op-gateway/op-gateway-lambda/src/aws-lambda-ccip-router.ts:183 | the stored function's inputs decode `0x` followed by the calldata after its first 10 characters; the function that runs has the calldata's lower-cased first 10 characters as its sighash |
| Router.CallPropagatesDecodeFailure | op-gateway/op-gateway-lambda/src/aws-lambda-ccip-router.ts:183 | a decode failure leaves `call` as the same exception |
| Router.CallRunsStoredHandler | op-gateway/op-gateway-lambda/src/aws-lambda-ccip-router.ts:186-205 | a handler exception propagates; a result becomes `0x` when `outputs` is missing (falsy), and otherwise, an empty list included, the hexlified encoding against the outputs, whose failures also propagate |
| Router.ServerLambda.RootRoute | op-gateway/op-gateway-lambda/src/aws-lambda-ccip-router.ts:108-110 | the liveness route answers `okResponse('hey ho!')`, status 200 |
| Router.ServerLambda.GetRoute | op-gateway/op-gateway-lambda/src/aws-lambda-ccip-router.ts:111-133 | 400 exactly when the sender is not an address or the calldata is not bytes-like, and `call` is not consulted then; 500 exactly when `call` throws; otherwise the JSON response of `call` |
| Router.ServerLambda.PostRoute | op-gateway/op-gateway-lambda/src/aws-lambda-ccip-router.ts:134-156 | the route throws exactly when `JSON.parse` throws or yields null or undefined; otherwise the same 400 / 500 / pass-through rules apply to the body's `sender` and `data` |
| Router.PostAgreesWithGet | op-gateway/op-gateway-lambda/src/aws-lambda-ccip-router.ts:134-156 | a body `{ sender: s, data: d }` is answered exactly as GET `/s/d.json` |
| LambdaRouter.ServerLambda.constructor | op-gateway/op-gateway-lambda/lambda/src/aws-lambda-ccip-router.ts:61-63 | a new server has no handlers |
| LambdaRouter.ServerLambda.Add | op-gateway/op-gateway-lambda/lambda/src/aws-lambda-ccip-router.ts:71-85 | as in the other copy: in-order writes under the sighash, later duplicates overwrite, an unresolvable description throws and keeps the earlier writes |
| LambdaRouter.ServerLambda.CallResult | op-gateway/op-gateway-lambda/lambda/src/aws-lambda-ccip-router.ts:157-202 | a `hexlify` exception propagates; 404 exactly when no handler is stored, with the not-found message; 200 carries only hex `data` |
| LambdaRouter.CallResultRunsStoredHandler | op-gateway/op-gateway-lambda/lambda/src/aws-lambda-ccip-router.ts:174-202 | once the selector is found, the handler runs on `decode([], '0x' + calldata.slice(10))`; decode, handler, encode and `hexlify` exceptions propagate; the result becomes `0x` when `outputs` is missing, and otherwise `hexlify(encode([], result))` |
| LambdaRouter.ServerLambda.Call | op-gateway/op-gateway-lambda/lambda/src/aws-lambda-ccip-router.ts:157-202 | the step-by-step `call`, with both parameter-list loops, completes exactly as `CallResult`: the loops leave the type lists empty |
| LambdaRouter.CallResultUsesEmptyTypeLists | op-gateway/op-gateway-lambda/lambda/src/aws-lambda-ccip-router.ts:174-198 | only the empty type list reaches the coder: a coder that agrees on the empty list gives the same response, whatever the function's inputs and outputs |
| LambdaRouter.VariantsAgreeWithoutParameters | op-gateway/op-gateway-lambda/lambda/src/aws-lambda-ccip-router.ts:174-199 | the two copies answer alike when every stored function takes no inputs and its `outputs` is missing or an empty list |
| LambdaRouter.ExampleRegistryKeyedBySighash | op-gateway/op-gateway-lambda/lambda/src/aws-lambda-ccip-router.ts:71-85 | the dictionary of the `f(uint256)` example is one `add` could build with its library: its entry sits under its function's sighash |
| LambdaRouter.LambdaHandlerGetsNoArguments | op-gateway/op-gateway-lambda/lambda/src/aws-lambda-ccip-router.ts:174-199 | for `f(uint256) returns (uint256)` and an echoing handler, the other copy answers `0x01`, and this copy hands the handler nothing and answers `0x` |
| LambdaRouter.ServerLambda.RootRoute | op-gateway/op-gateway-lambda/lambda/src/aws-lambda-ccip-router.ts:106-108 | the liveness route answers `okResponse('hey ho!')`, status 200 |
| LambdaRouter.ServerLambda.GetRoute | op-gateway/op-gateway-lambda/lambda/src/aws-lambda-ccip-router.ts:109-130 | 400 exactly when validation fails, before `call`; 500 exactly when `call` throws; otherwise the JSON response of `call` |
| LambdaRouter.ServerLambda.PostRoute | op-gateway/op-gateway-lambda/lambda/src/aws-lambda-ccip-router.ts:131-153 | throws exactly when `JSON.parse` throws or yields null or undefined; otherwise the GET rules apply to the body's `sender` and `data` |
| Js.GetProperty | op-gateway/op-gateway-lambda/src/aws-lambda-ccip-router.ts:136-137 | reading a property throws exactly on null and undefined; a field present on an object is the value read, and any other defined value read is such a field |
| Js.TypeOf | op-gateway/op-gateway-lambda/lambda/src/aws-lambda-ccip-router.ts:176 | `typeof` is "string" exactly for strings, which is what every `for..in` key is |
| Js.Slice | op-gateway/op-gateway-lambda/lambda/src/index.ts:77 | `slice(from, to)` with JavaScript's clamping: the characters from `from` to `to` when both are in range, the rest of the text from `from` when `to` passes the end, and empty when `to <= from`; the length is always the clamped span |
| Js.SliceFrom | op-gateway/op-gateway-lambda/src/aws-lambda-ccip-router.ts:183 | `slice(from)`: the rest of the text from `from`, or empty past the end |
| Js.ToLower | op-gateway/op-gateway-lambda/src/aws-lambda-ccip-router.ts:53 | `toLowerCase` keeps the length and lower-cases each character in place |
| Js.ReplaceFirst | op-gateway/op-gateway-lambda/lambda/src/index.ts:78 | `replace(pat, rep)` with a string pattern leaves the text unchanged when `pat` does not occur, and otherwise shortens it by `pat` and lengthens it by `rep` |
| Js.ReplaceFirstSplices | op-gateway/op-gateway-lambda/lambda/src/index.ts:78 | only the first occurrence is replaced: the text before and after it is kept and `rep` stands in its place |
| Js.IndexOf | op-gateway/op-gateway-lambda/lambda/src/index.ts:78 | the first place at or after `from` where the pattern occurs, or none |
| PathProps.HexRun | op-gateway/op-gateway-lambda/lambda/src/index.ts:73 | the greedy `[a-fA-F0-9]{1,}` consumes a run of hex digits followed by a non-hex character or the end |
| PathProps.MatchAt | op-gateway/op-gateway-lambda/lambda/src/index.ts:72-74 | a match the engine finds at a position is at least 52 characters and lies inside the path |
| PathProps.MatchAtSound | op-gateway/op-gateway-lambda/lambda/src/index.ts:72-74 | what the engine matches at a position is a text in the pattern's language |
| PathProps.HexRunExact | op-gateway/op-gateway-lambda/lambda/src/index.ts:73 | a hex run followed by a non-hex character or the end is exactly what the greedy `[a-fA-F0-9]{1,}` consumes |
| PathProps.MatchAtComplete | op-gateway/op-gateway-lambda/lambda/src/index.ts:72-74 | the engine finds every match at a position, and each position has only one match length |
| PathProps.FirstMatch | op-gateway/op-gateway-lambda/lambda/src/index.ts:72-75 | the scan returns the first position with a match, and no match starts before it |
| PathProps.FirstMatchIsLeftmost | op-gateway/op-gateway-lambda/lambda/src/index.ts:72-75 | the scan finds nothing exactly when no substring matches the pattern; otherwise it finds a matching substring of the only possible length, and none starts earlier |
| PathProps.JsonSuffixRemoved | op-gateway/op-gateway-lambda/lambda/src/index.ts:78 | `replace('.json', '')` on the match from position 44 removes exactly the trailing `.json` |
| PathProps.Decode | op-gateway/op-gateway-lambda/lambda/src/index.ts:72-82 | `{}` exactly when the scan finds no match; otherwise, for the first match, the sender is the 41 characters after the leading `/`, stopping one short of the address's end, and the calldata is the text between `/` and `.json` |
| PathProps.DecodeShape | op-gateway/op-gateway-lambda/lambda/src/index.ts:77-78 | a decoded sender is `0x` and 39 hex digits, the match's address without its 40th digit; the calldata is `0x` and hex digits |
| PathProps.DecodeEmptyIffNoMatch | op-gateway/op-gateway-lambda/lambda/src/index.ts:72-76 | both the as-written and the corrected decoder return `{}` exactly when no substring of the path matches the pattern |
| PathProps.DecodeDropsLastAddressDigit | op-gateway/op-gateway-lambda/lambda/src/index.ts:77 | for the path `/<address>/<calldata>.json`, the decoded sender is the address without its last digit, so it never equals the address |
| PathProps.DecodeIntended | op-gateway/op-gateway-lambda/lambda/src/index.ts:77 | with `slice(1, 43)` the sender is the 42 characters after the leading `/` of the first match, and the calldata is as before |
| PathProps.DecodeIntendedShape | op-gateway/op-gateway-lambda/lambda/src/index.ts:77-78 | with `slice(1, 43)` the sender is `0x` and all 40 address digits |
| PathProps.DecodeIntendedRoundTrip | op-gateway/op-gateway-lambda/lambda/src/index.ts:77-78 | with `slice(1, 43)`, decoding `/<address>/<calldata>.json` gives back the address and the calldata |
| PathProps.DecodeUsesFirstMatch | op-gateway/op-gateway-lambda/lambda/src/index.ts:72-75 | a path that begins with a match is decoded from that match alone; later matches are ignored |
| LambdaIndex.PropsDecoderAWS | op-gateway/op-gateway-lambda/lambda/src/index.ts:66-83 | `{}` for a missing request, an empty `rawPath`, or a `rawPath` with no match; otherwise, for the first match at `i` of length `n`, the sender is `rawPath[i+1..i+42]` and the calldata `rawPath[i+44..i+n-5]`; the response argument is ignored |
| LambdaIndex.TrackedRequestLosesDigit | op-gateway/op-gateway-lambda/lambda/src/index.ts:77-78 | a request for `/<address>/<calldata>.json` is recorded with the address's last digit missing, whatever the response |
| Index.PropsDecoderAWS | op-gateway/op-gateway-lambda/src/index.ts:63-80 | `{}` for a missing request, an empty `path`, or a `path` with no match; otherwise, for the first match at `i` of length `n`, the sender is `path[i+1..i+42]` and the calldata `path[i+44..i+n-5]`; the response argument is ignored |
| Index.TrackedRequestLosesDigit | op-gateway/op-gateway-lambda/src/index.ts:74-75 | a request for `/<address>/<calldata>.json` is recorded with the address's last digit missing, whatever the response |

## Left out

- `toInterface` and ABI parsing (human-readable or JSON ABI into an `Interface`): the parsed interface is a parameter whose `getFunction` resolves or throws.
- keccak-256, `hexlify`, `isAddress`, `isBytesLike`, the ABI coder and `JSON.parse` are library code: they are parameters, constrained only by their result types.
- The routers `AwsFunctionRouter` and `AwsFunctionRouterV2`: path matching, the resource prefix, CORS, and the header and body text of `okResponse` and `errorResponse`. The routes take the already-extracted path parameters or body text.
- Rpc.Respond: the body is the `{ data }` / `{ message }` value, not its `JSON.stringify` text.
- ethers' `FunctionFragment` always carries an `outputs` array, so with ethers itself the `0x` branch of `call` is not taken. Here `outputs` is an `Option`: `None` is a missing (falsy) `outputs`, and `Some([])` is truthy and goes to the encoder, as the source's test does.
- Js.ToLower: only ASCII letters are lower-cased. `hexlify` output is ASCII, so this does not change the selector.
- `handlers` is a plain JavaScript object in the source, so a selector such as `constructor` could hit an inherited property. Selectors here are `0x` hex text, so the model uses a map.
- Handlers are asynchronous; the model treats `await` as a call whose failure is a thrown exception. Concurrent requests are not modelled.
- `console.log` output, the tracker (`aws-lambda-tracker.ts`), the Lambda entry points `handler` and `gatewayHandler`, and the CDK stack are not part of this model.
- JavaScript values are modelled without floating-point numbers; numbers are integers.
- Unicode beyond `char` and the regular-expression engine in general: the one pattern the decoder uses is written out.

## Findings

| source | as written | input that shows it | evidently intended | confidence | as-written member | corrected member |
|---|---|---|---|---|---|---|
| op-gateway/op-gateway-lambda/lambda/src/index.ts:77 (and op-gateway/op-gateway-lambda/src/index.ts:74) | `trackingData[0].slice(1, 42)` keeps `0x` and only 39 of the 40 address digits | the path `/0x` + 40 hex digits + `/0x01.json` records a 41-character sender | `slice(1, 43)`: the whole 42-character address | not executed | PathProps.DecodeDropsLastAddressDigit | PathProps.DecodeIntendedRoundTrip |
| op-gateway/op-gateway-lambda/lambda/src/aws-lambda-ccip-router.ts:174-191 | the `for..in` loops yield string keys behind a `typeof !== 'string'` guard, so they push nothing; the second loop also pushes into `inputs` rather than `outputs` | `f(uint256) returns (uint256)` with an echoing handler: the handler gets no arguments and the answer is `0x` rather than the encoded result | decode against `handler.type.inputs` and encode against `handler.type.outputs`, as the other router file does | not executed | LambdaRouter.LambdaHandlerGetsNoArguments | Router.ServerLambda.Call |
