/** The library calls the gateway makes but does not implement: the ethers helpers
    `hexlify`, `isAddress`, `isBytesLike`, `id` (keccak-256 of a text), the ABI coder,
    `Interface.getFunction`, and `JSON.parse`. They are not given bodies here; a
    `Library` value carries them, and every result of the gateway is stated for
    whichever library it is given. What the gateway relies on is written into the
    result types: `hexlify` yields `0x` and hex digits, `id` yields a 32-byte digest
    in lower-case hex. */
module Externals {
  import opened Js

  predicate IsHexDigit(c: char) {
    '0' <= c <= '9' || 'a' <= c <= 'f' || 'A' <= c <= 'F'
  }

  predicate IsLowerHexDigit(c: char) {
    '0' <= c <= '9' || 'a' <= c <= 'f'
  }

  predicate AllHex(s: string) {
    forall i | 0 <= i < |s| :: IsHexDigit(s[i])
  }

  /** `0x` followed by hex digits of either case. */
  predicate IsHexString(s: string) {
    IsPrefixedHex(s, 0)
  }

  /** `0x` followed by at least `min` hex digits. */
  predicate IsPrefixedHex(s: string, min: nat) {
    |s| >= 2 + min && s[..2] == "0x" && AllHex(s[2..])
  }

  type HexString = s: string | IsHexString(s) witness "0x"

  /** `0x` followed by 64 lower-case hex digits: what `id` returns. */
  predicate IsDigest(s: string) {
    |s| == 66 && s[..2] == "0x" && forall i | 2 <= i < 66 :: IsLowerHexDigit(s[i])
  }

  type Digest = s: string | IsDigest(s)
    witness "0x" + seq(64, _ => '0')

  /** A function selector as text: `0x` followed by 8 lower-case hex digits (4 bytes). */
  predicate IsSelector(s: string) {
    |s| == 10 && s[..2] == "0x" && forall i | 2 <= i < 10 :: IsLowerHexDigit(s[i])
  }

  /** An ABI parameter type, by its canonical type string (`uint256`, `bytes`,
      `(address,bytes)`); the ABI coder accepts a bare string in its place. */
  datatype ParamType = ParamType(canonical: string)

  /** A decoded ABI value. */
  datatype AbiValue =
    | Uint(n: nat)
    | Address(a: string)
    | Bytes(b: string)
    | Text(t: string)
    | Tuple(items: seq<AbiValue>)

  /** A resolved contract function. `None` stands for a missing (falsy) `outputs`;
      an empty list of outputs is `Some([])`, which JavaScript treats as true. */
  datatype FunctionFragment = FunctionFragment(
    name: string,
    inputs: seq<ParamType>,
    outputs: Option<seq<ParamType>>)

  /** A parsed contract interface: resolves a function name, signature or selector
      to its fragment, or throws. */
  datatype Interface = Interface(getFunction: string -> Completion<FunctionFragment>)

  /** The external functions the gateway calls. */
  datatype Library = Library(
    hexlify: JsValue -> Completion<HexString>,
    isAddress: JsValue -> bool,
    isBytesLike: JsValue -> bool,
    id: string -> Digest,
    decode: (seq<ParamType>, string) -> Completion<seq<AbiValue>>,
    encode: (seq<ParamType>, seq<AbiValue>) -> Completion<string>,
    jsonParse: string -> Completion<JsValue>)

  /** The type strings joined by commas. */
  function JoinTypes(types: seq<ParamType>): string {
    if types == [] then ""
    else if |types| == 1 then types[0].canonical
    else types[0].canonical + "," + JoinTypes(types[1..])
  }

  /** The canonical signature that is hashed: the name and the parenthesised input
      types, as the "Function Selector" section of the Solidity contract ABI
      specification defines it. Output types are not part of it. */
  function Signature(f: FunctionFragment): string {
    f.name + "(" + JoinTypes(f.inputs) + ")"
  }

  /** `Interface.getSighash(f)`: the first 4 bytes of keccak-256 of the signature. */
  function Sighash(id: string -> Digest, f: FunctionFragment): (r: string)
    ensures IsSelector(r)
  {
    id(Signature(f))[..10]
  }

  /** Two fragments that differ only in their outputs share a selector. */
  lemma SighashIgnoresOutputs(id: string -> Digest, f: FunctionFragment, g: FunctionFragment)
    requires f.name == g.name && f.inputs == g.inputs
    ensures Sighash(id, f) == Sighash(id, g)
  {
  }
}
