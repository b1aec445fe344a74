/** What `add` does to the handler dictionary, as a specification both router
    files are proved against. Each description is resolved against the interface
    and written under the sighash of the resolved function, in order: a later entry
    with the same selector overwrites an earlier one without complaint, and a
    description that does not resolve throws, leaving the entries written before it. */
module Registry {
  import opened Js
  import opened Externals
  import opened Rpc

  predicate Resolves(abi: Interface, d: HandlerDescription) {
    abi.getFunction(d.signature).Normal?
  }

  predicate AllResolve(abi: Interface, descs: seq<HandlerDescription>) {
    forall i | 0 <= i < |descs| :: Resolves(abi, descs[i])
  }

  /** The entry a resolving description produces. */
  function EntryFor(abi: Interface, d: HandlerDescription): Handler
    requires Resolves(abi, d)
  {
    Handler(abi.getFunction(d.signature).value, d.func)
  }

  /** The key a resolving description is stored under. */
  function KeyFor(abi: Interface, id: string -> Digest, d: HandlerDescription): string
    requires Resolves(abi, d)
  {
    Sighash(id, abi.getFunction(d.signature).value)
  }

  /** The number of leading descriptions that resolve: where `add` stops. */
  function FirstUnresolved(abi: Interface, descs: seq<HandlerDescription>): (n: nat)
    ensures n <= |descs|
    ensures AllResolve(abi, descs[..n])
    ensures n < |descs| ==> !Resolves(abi, descs[n])
  {
    if descs == [] then 0
    else if !Resolves(abi, descs[0]) then 0
    else
      var n := FirstUnresolved(abi, descs[1..]);
      assert descs[..n + 1] == [descs[0]] + descs[1..][..n];
      n + 1
  }

  /** `add` stops at `n` when the first `n` descriptions resolve and the next does not. */
  lemma {:induction false} FirstUnresolvedAt(abi: Interface, descs: seq<HandlerDescription>, n: nat)
    requires n <= |descs|
    requires AllResolve(abi, descs[..n])
    requires n < |descs| ==> !Resolves(abi, descs[n])
    ensures FirstUnresolved(abi, descs) == n
  {
    if descs != [] && n > 0 {
      assert Resolves(abi, descs[..n][0]);
      assert descs[1..][..n - 1] == descs[..n][1..];
      FirstUnresolvedAt(abi, descs[1..], n - 1);
    }
  }

  /** The dictionary after writing every description, in order, into `h`. */
  function Registered(h: map<string, Handler>, abi: Interface, id: string -> Digest,
                      descs: seq<HandlerDescription>): (r: map<string, Handler>)
    requires AllResolve(abi, descs)
    // no key is ever removed
    ensures forall k | k in h :: k in r
    // every description's key is present
    ensures forall i | 0 <= i < |descs| :: KeyFor(abi, id, descs[i]) in r
    // the last description's entry is what its key holds
    ensures descs != [] ==> r[KeyFor(abi, id, descs[|descs| - 1])] == EntryFor(abi, descs[|descs| - 1])
  {
    if descs == [] then h
    else
      var last := descs[|descs| - 1];
      Registered(h, abi, id, descs[..|descs| - 1])[KeyFor(abi, id, last) := EntryFor(abi, last)]
  }

  /** Every entry is stored under the sighash of its own function. */
  predicate KeyedBySighash(h: map<string, Handler>, id: string -> Digest) {
    forall k | k in h :: k == Sighash(id, h[k].fragment)
  }

  /** A key is present afterwards exactly when it was before or some description
      resolves to it; a key no description names keeps its entry. */
  lemma {:induction false} RegisteredDomain(h: map<string, Handler>, abi: Interface,
                                            id: string -> Digest, descs: seq<HandlerDescription>, k: string)
    requires AllResolve(abi, descs)
    ensures k in Registered(h, abi, id, descs) <==>
              k in h || exists i | 0 <= i < |descs| :: KeyFor(abi, id, descs[i]) == k
    ensures (forall i | 0 <= i < |descs| :: KeyFor(abi, id, descs[i]) != k) && k in h ==>
              Registered(h, abi, id, descs)[k] == h[k]
  {
    if descs != [] {
      var n := |descs| - 1;
      var init := descs[..n];
      RegisteredDomain(h, abi, id, init, k);
      assert forall i | 0 <= i < n :: init[i] == descs[i];
      if exists i | 0 <= i < n :: KeyFor(abi, id, init[i]) == k {
        var i :| 0 <= i < n && KeyFor(abi, id, init[i]) == k;
        assert KeyFor(abi, id, descs[i]) == k;
      }
    }
  }

  /** The entry under a key is the one from the last description resolving to it:
      duplicates overwrite. */
  lemma {:induction false} RegisteredLastWins(h: map<string, Handler>, abi: Interface,
                                              id: string -> Digest, descs: seq<HandlerDescription>, i: nat)
    requires AllResolve(abi, descs)
    requires i < |descs|
    requires forall j | i < j < |descs| :: KeyFor(abi, id, descs[j]) != KeyFor(abi, id, descs[i])
    ensures KeyFor(abi, id, descs[i]) in Registered(h, abi, id, descs)
    ensures Registered(h, abi, id, descs)[KeyFor(abi, id, descs[i])] == EntryFor(abi, descs[i])
  {
    var n := |descs| - 1;
    if i < n {
      var init := descs[..n];
      assert init[i] == descs[i];
      assert forall j | i < j < n :: init[j] == descs[j];
      RegisteredLastWins(h, abi, id, init, i);
    }
  }

  /** Two descriptions naming the same selector: the later one is what remains. */
  lemma DuplicateOverwrites(h: map<string, Handler>, abi: Interface, id: string -> Digest,
                            first: HandlerDescription, second: HandlerDescription)
    requires Resolves(abi, first) && Resolves(abi, second)
    requires KeyFor(abi, id, first) == KeyFor(abi, id, second)
    ensures Registered(h, abi, id, [first, second]) ==
              h[KeyFor(abi, id, second) := EntryFor(abi, second)]
  {
    assert [first, second][..1] == [first];
    assert [first][..0] == [];
    assert Registered(h, abi, id, [first]) == h[KeyFor(abi, id, first) := EntryFor(abi, first)];
  }

  /** Writing resolved functions under their sighash keeps the dictionary keyed by
      sighash, so every key is a lower-case 4-byte selector. */
  lemma {:induction false} RegisteredKeyedBySighash(h: map<string, Handler>, abi: Interface,
                                                    id: string -> Digest, descs: seq<HandlerDescription>)
    requires AllResolve(abi, descs)
    requires KeyedBySighash(h, id)
    ensures KeyedBySighash(Registered(h, abi, id, descs), id)
    ensures forall k | k in Registered(h, abi, id, descs) :: IsSelector(k)
  {
    if descs != [] {
      RegisteredKeyedBySighash(h, abi, id, descs[..|descs| - 1]);
    }
    var r := Registered(h, abi, id, descs);
    forall k | k in r ensures IsSelector(k) {
      assert k == Sighash(id, r[k].fragment);
    }
  }

  lemma RegisteredKeyedBySighashIfKeyed(h: map<string, Handler>, abi: Interface,
                                        id: string -> Digest, descs: seq<HandlerDescription>)
    requires AllResolve(abi, descs)
    ensures KeyedBySighash(h, id) ==> KeyedBySighash(Registered(h, abi, id, descs), id)
  {
    if KeyedBySighash(h, id) {
      RegisteredKeyedBySighash(h, abi, id, descs);
    }
  }
}
