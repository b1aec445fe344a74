/** The tracking properties both `propsDecoderAWS` functions read off a request
    path: the first substring matching `/0x<40 hex>/0x<1 or more hex>.json`, with
    `sender` sliced from characters [1, 42) of the match and `calldata` from
    character 44 on with `.json` removed. The pattern is given twice: once as the
    set of texts it matches in full (`InPattern`), and once as the left-to-right
    scan a regular-expression engine makes (`MatchAt`, `FirstMatch`), proved to
    find exactly the leftmost matching substring. */
module PathProps {
  import opened Js
  import opened Externals

  /** The texts `/\/0x[a-fA-F0-9]{40}\/0x[a-fA-F0-9]{1,}\.json/` matches in full:
      `/0x`, 40 hex digits, `/0x`, at least one hex digit, `.json`. */
  predicate InPattern(w: string) {
    && |w| >= 52
    && w[0] == '/' && w[1..3] == "0x" && AllHex(w[3..43])
    && w[43] == '/' && w[44..46] == "0x" && AllHex(w[46..|w| - 5])
    && w[|w| - 5..] == ".json"
  }

  /** The `n` characters of `p` from `i` on match the pattern. */
  predicate MatchesAt(p: string, i: nat, n: nat) {
    i + n <= |p| && InPattern(p[i..i + n])
  }

  /** Some substring of `p` matches the pattern. */
  ghost predicate Matches(p: string) {
    exists i: nat, n: nat :: MatchesAt(p, i, n)
  }

  /** A slice of a slice is a slice of the original. */
  lemma SliceOfSlice(p: string, i: nat, n: nat, a: nat, b: nat)
    requires i + n <= |p| && a <= b <= n
    ensures p[i..i + n][a..b] == p[i + a..i + b]
  {
    var w, v := p[i..i + n][a..b], p[i + a..i + b];
    assert forall k | 0 <= k < |w| :: w[k] == v[k];
  }

  /** The length of the longest run of hex digits in `p` starting at `j`: what the
      greedy `[a-fA-F0-9]{1,}` consumes. */
  function HexRun(p: string, j: nat): (r: nat)
    requires j <= |p|
    ensures j + r <= |p|
    ensures AllHex(p[j..j + r])
    ensures j + r == |p| || !IsHexDigit(p[j + r])
    decreases |p| - j
  {
    if j == |p| || !IsHexDigit(p[j]) then 0
    else
      var r := HexRun(p, j + 1);
      HexPrepend(p, j, r);
      1 + r
  }

  lemma HexPrepend(p: string, j: nat, r: nat)
    requires j + 1 + r <= |p| && IsHexDigit(p[j]) && AllHex(p[j + 1..j + 1 + r])
    ensures AllHex(p[j..j + 1 + r])
  {
    var s, t := p[j..j + 1 + r], p[j + 1..j + 1 + r];
    forall k | 0 < k < |s| ensures IsHexDigit(s[k]) {
      assert s[k] == t[k - 1];
    }
  }

  /** A run of `k` hex digits ending before a non-hex character (or the end) is
      the whole greedy run. */
  lemma {:induction false} HexRunExact(p: string, j: nat, k: nat)
    requires j + k <= |p|
    requires AllHex(p[j..j + k])
    requires j + k == |p| || !IsHexDigit(p[j + k])
    ensures HexRun(p, j) == k
    decreases k
  {
    if k > 0 {
      var s, t := p[j..j + k], p[j + 1..j + k];
      assert s[0] == p[j];
      forall m | 0 <= m < |t| ensures IsHexDigit(t[m]) {
        assert t[m] == s[m + 1];
      }
      HexRunExact(p, j + 1, k - 1);
    }
  }

  /** The prefix of the pattern up to the calldata digits: `/0x<40 hex>/0x`. */
  predicate HeadAt(p: string, i: nat)
    requires i + 46 <= |p|
  {
    p[i] == '/' && p[i + 1..i + 3] == "0x" && AllHex(p[i + 3..i + 43]) &&
    p[i + 43] == '/' && p[i + 44..i + 46] == "0x"
  }

  /** The length of the match the engine finds starting at `i`, if any. After the
      fixed head, the greedy hex run can only give back digits, and a digit is
      never `.`, so the run must be followed directly by `.json`. */
  function MatchAt(p: string, i: nat): (r: Option<nat>)
    ensures r.Some? ==> r.value >= 52 && i + r.value <= |p|
  {
    if i + 52 > |p| || !HeadAt(p, i) then None
    else
      var h := HexRun(p, i + 46);
      if h >= 1 && i + 51 + h <= |p| && p[i + 46 + h..i + 51 + h] == ".json" then Some(51 + h)
      else None
  }

  /** What the engine matches at a position is in the pattern's language. */
  lemma MatchAtSound(p: string, i: nat)
    ensures MatchAt(p, i).Some? ==> MatchesAt(p, i, MatchAt(p, i).value)
  {
    if MatchAt(p, i).Some? {
      MatchFromParts(p, i, HexRun(p, i + 46));
    }
  }

  /** The head, a non-empty hex run and `.json` make a match. */
  lemma MatchFromParts(p: string, i: nat, h: nat)
    requires i + 51 + h <= |p| && h >= 1 && HeadAt(p, i)
    requires AllHex(p[i + 46..i + 46 + h]) && p[i + 46 + h..i + 51 + h] == ".json"
    ensures MatchesAt(p, i, 51 + h)
  {
    var n := 51 + h;
    var w := p[i..i + n];
    SliceOfSlice(p, i, n, 1, 3);
    SliceOfSlice(p, i, n, 3, 43);
    SliceOfSlice(p, i, n, 44, 46);
    SliceOfSlice(p, i, n, 46, n - 5);
    SliceOfSlice(p, i, n, n - 5, n);
    assert w[n - 5..] == w[n - 5..n];
  }

  /** Every matching substring starting at `i` is the one `MatchAt` finds: the
      engine misses none, and the match at a position has only one length. */
  lemma MatchAtComplete(p: string, i: nat, n: nat)
    requires MatchesAt(p, i, n)
    ensures MatchAt(p, i) == Some(n)
  {
    var w := p[i..i + n];
    SliceOfSlice(p, i, n, 1, 3);
    SliceOfSlice(p, i, n, 3, 43);
    SliceOfSlice(p, i, n, 44, 46);
    SliceOfSlice(p, i, n, 46, n - 5);
    SliceOfSlice(p, i, n, n - 5, n);
    assert w[n - 5..] == w[n - 5..n];
    assert HeadAt(p, i);
    assert p[i + n - 5] == w[n - 5] == '.';
    HexRunExact(p, i + 46, n - 51);
  }

  /** The leftmost match at or after `from`, as (start, length). */
  function FirstMatch(p: string, from: nat): (r: Option<(nat, nat)>)
    ensures r.Some? ==> from <= r.value.0 && r.value.1 >= 52 && r.value.0 + r.value.1 <= |p|
    ensures r.Some? ==> MatchAt(p, r.value.0) == Some(r.value.1)
    ensures r.Some? ==> forall j: nat | from <= j < r.value.0 :: MatchAt(p, j).None?
    ensures r.None? ==> forall j: nat | from <= j :: MatchAt(p, j).None?
    decreases |p| - from
  {
    if from + 52 > |p| then None
    else
      match MatchAt(p, from)
      case Some(n) => Some((from, n))
      case None => FirstMatch(p, from + 1)
  }

  /** The scan agrees with the pattern: it finds nothing exactly when no substring
      matches, and otherwise a matching substring before which none starts. */
  lemma {:induction false} FirstMatchIsLeftmost(p: string)
    ensures FirstMatch(p, 0).None? <==> !Matches(p)
    ensures FirstMatch(p, 0).Some? ==>
              var (i, n) := FirstMatch(p, 0).value;
              && MatchesAt(p, i, n)
              && (forall m: nat | MatchesAt(p, i, m) :: m == n)
              && (forall j: nat, m: nat | j < i :: !MatchesAt(p, j, m))
  {
    var fm := FirstMatch(p, 0);
    if fm.Some? {
      MatchAtSound(p, fm.value.0);
    }
    forall j: nat, m: nat | MatchesAt(p, j, m)
      ensures fm.Some? && fm.value.0 <= j && (j == fm.value.0 ==> m == fm.value.1)
    {
      MatchAtComplete(p, j, m);
    }
  }

  /** What both decoders return: `{}` or `{ sender, calldata }`. */
  datatype Props = NoProps | Props(sender: string, calldata: string)

  /** The match from character 44 on is `0x`, hex digits and `.json`; the first
      `.json` in it is the trailing one, so `replace` strips exactly that. */
  lemma JsonSuffixRemoved(m: string)
    requires InPattern(m)
    ensures ReplaceFirst(SliceFrom(m, 44), ".json", "") == m[44..|m| - 5]
  {
    var s := m[44..];
    assert s[|s| - 5..] == m[|m| - 5..];
    assert OccursAt(s, ".json", |s| - 5);
    forall j: nat | j < |s| - 5 ensures !OccursAt(s, ".json", j) {
      if j >= 2 {
        assert s[j] == m[46..|m| - 5][j - 2];
      } else {
        assert s[j] == m[44..46][j];
      }
    }
    var k := IndexOf(s, ".json", 0);
    assert k == Some(|s| - 5);
  }

  /** The slicing both decoders do on the match found, if any; the sender ends at
      `senderEnd` within the match. */
  function Extract(path: string, found: Option<(nat, nat)>, senderEnd: nat): Props
    requires found.Some? ==> found.value.0 + found.value.1 <= |path|
  {
    if found.None? then NoProps
    else SliceMatch(path[found.value.0..found.value.0 + found.value.1], senderEnd)
  }

  /** `sender` is `m.slice(1, senderEnd)`, `calldata` is `m.slice(44).replace('.json', '')`. */
  function SliceMatch(m: string, senderEnd: nat): Props {
    Props(Slice(m, 1, senderEnd), ReplaceFirst(SliceFrom(m, 44), ".json", ""))
  }

  /** The slices of a match: the sender is `0x` and the first `senderEnd - 3`
      address digits, the calldata `0x` and its digits. */
  lemma MatchSlices(m: string, senderEnd: nat)
    requires InPattern(m) && 3 <= senderEnd <= 43
    ensures SliceMatch(m, senderEnd) == Props(m[1..senderEnd], m[44..|m| - 5])
    ensures IsPrefixedHex(m[1..senderEnd], senderEnd - 3)
    ensures IsPrefixedHex(m[44..|m| - 5], 1)
  {
    JsonSuffixRemoved(m);
    var sender, calldata := m[1..senderEnd], m[44..|m| - 5];
    var digits, data := m[3..43], m[46..|m| - 5];
    assert sender[..2] == m[1..3];
    forall k | 0 <= k < |sender| - 2 ensures IsHexDigit(sender[2..][k]) {
      assert sender[2..][k] == digits[k];
    }
    assert calldata[..2] == m[44..46];
    forall k | 0 <= k < |calldata| - 2 ensures IsHexDigit(calldata[2..][k]) {
      assert calldata[2..][k] == data[k];
    }
  }

  /** The slices of the match of length `n` at `i`, as positions in the path. */
  lemma SliceMatchAt(path: string, i: nat, n: nat, senderEnd: nat)
    requires MatchesAt(path, i, n) && 3 <= senderEnd <= 43
    ensures SliceMatch(path[i..i + n], senderEnd) == Props(path[i + 1..i + senderEnd], path[i + 44..i + n - 5])
    ensures IsPrefixedHex(path[i + 1..i + senderEnd], senderEnd - 3)
    ensures IsPrefixedHex(path[i + 44..i + n - 5], 1)
  {
    var m := path[i..i + n];
    MatchSlices(m, senderEnd);
    SliceOfSlice(path, i, n, 1, senderEnd);
    SliceOfSlice(path, i, n, 44, n - 5);
    assert |m| == n;
  }

  /** Where the slices of a match fall in the path. */
  lemma ExtractSlices(path: string, found: Option<(nat, nat)>, i: nat, n: nat, senderEnd: nat)
    requires found.Some? && i == found.value.0 && n == found.value.1
    requires MatchesAt(path, i, n) && 3 <= senderEnd <= 43
    ensures Extract(path, found, senderEnd) == Props(path[i + 1..i + senderEnd], path[i + 44..i + n - 5])
    ensures IsPrefixedHex(path[i + 1..i + senderEnd], senderEnd - 3)
    ensures IsPrefixedHex(path[i + 44..i + n - 5], 1)
  {
    SliceMatchAt(path, i, n, senderEnd);
  }


  /** What the slicing makes of the first match, if any: the sender is the path
      from one past the match's start to `senderEnd` past it, the calldata the
      path from 44 past the start to just before `.json`. */
  lemma FirstExtract(path: string, senderEnd: nat, found: Option<(nat, nat)>, i: nat, n: nat)
    requires 3 <= senderEnd <= 43
    requires found == FirstMatch(path, 0) && found.Some? && i == found.value.0 && n == found.value.1
    ensures Extract(path, found, senderEnd) == Props(path[i + 1..i + senderEnd], path[i + 44..i + n - 5])
    ensures |path[i + 1..i + senderEnd]| == senderEnd - 1
    ensures path[i + 1..i + senderEnd] + [path[i + senderEnd]] == path[i + 1..i + senderEnd + 1]
    ensures IsPrefixedHex(path[i + 1..i + senderEnd], senderEnd - 3)
    ensures IsPrefixedHex(path[i + 44..i + n - 5], 1)
  {
    MatchAtSound(path, i);
    ExtractSlices(path, found, i, n, senderEnd);
    assert path[i + 1..i + senderEnd] + [path[i + senderEnd]] == path[i + 1..i + senderEnd + 1];
  }

  /** The decoder as written: `{}` when nothing matches; otherwise, for the first
      match at `i` of length `n`, `sender` is `0x` and only the first 39 of the 40
      address digits (the 40th, `path[i + 42]`, is dropped), and `calldata` is `0x`
      and exactly the calldata digits. */
  function Decode(path: string): (r: Props)
    ensures r.Props? <==> FirstMatch(path, 0).Some?
    ensures r.Props? ==>
              var i, n := FirstMatch(path, 0).value.0, FirstMatch(path, 0).value.1;
              r == Props(path[i + 1..i + 42], path[i + 44..i + n - 5])
  {
    var found := FirstMatch(path, 0);
    if found.Some? then
      FirstExtract(path, 42, found, found.value.0, found.value.1);
      Extract(path, found, 42)
    else NoProps
  }

  /** The decoder with the slice the tracking evidently means, `slice(1, 43)`:
      `sender` is the whole address. */
  function DecodeIntended(path: string): (r: Props)
    ensures r.Props? <==> FirstMatch(path, 0).Some?
    ensures r.Props? ==>
              var i, n := FirstMatch(path, 0).value.0, FirstMatch(path, 0).value.1;
              r == Props(path[i + 1..i + 43], path[i + 44..i + n - 5])
  {
    var found := FirstMatch(path, 0);
    if found.Some? then
      FirstExtract(path, 43, found, found.value.0, found.value.1);
      Extract(path, found, 43)
    else NoProps
  }

  /** As written, the sender is 41 characters, `0x` and 39 hex digits: the
      address in the path is one digit longer. The calldata is `0x` and hex digits. */
  lemma DecodeShape(path: string)
    ensures var r := Decode(path);
            r.Props? ==>
              var i := FirstMatch(path, 0).value.0;
              && |r.sender| == 41 && IsPrefixedHex(r.sender, 39) && IsPrefixedHex(r.calldata, 1)
              && r.sender + [path[i + 42]] == path[i + 1..i + 43]
  {
    var found := FirstMatch(path, 0);
    if found.Some? {
      FirstExtract(path, 42, found, found.value.0, found.value.1);
    }
  }

  /** With the evident slice, the sender is the whole address, `0x` and 40 hex digits. */
  lemma DecodeIntendedShape(path: string)
    ensures var r := DecodeIntended(path);
            r.Props? ==> |r.sender| == 42 && IsPrefixedHex(r.sender, 40) && IsPrefixedHex(r.calldata, 1)
  {
    var found := FirstMatch(path, 0);
    if found.Some? {
      FirstExtract(path, 43, found, found.value.0, found.value.1);
    }
  }

  /** Both decoders return `{}` exactly when no substring of the path matches. */
  lemma DecodeEmptyIffNoMatch(path: string)
    ensures Decode(path).NoProps? <==> !Matches(path)
    ensures DecodeIntended(path).NoProps? <==> !Matches(path)
  {
    FirstMatchIsLeftmost(path);
  }

  /** The path a client requests for `sender` and `calldata`. */
  function TrackedPath(sender: string, calldata: string): string {
    "/" + sender + "/" + calldata + ".json"
  }

  /** A tracked path matches the pattern in full. */
  lemma TrackedPathInPattern(sender: string, calldata: string)
    requires IsPrefixedHex(sender, 40) && |sender| == 42 && IsPrefixedHex(calldata, 1)
    ensures InPattern(TrackedPath(sender, calldata))
    ensures FirstMatch(TrackedPath(sender, calldata), 0) == Some((0, |TrackedPath(sender, calldata)|))
  {
    var w := TrackedPath(sender, calldata);
    assert w[1..3] == sender[..2] && w[3..43] == sender[2..];
    assert w[44..46] == calldata[..2] && w[46..|w| - 5] == calldata[2..];
    assert w[|w| - 5..] == ".json";
    assert w[0..|w|] == w;
    MatchAtComplete(w, 0, |w|);
  }

  /** With the evident slice, decoding the tracked path gives back what was put in. */
  lemma DecodeIntendedRoundTrip(sender: string, calldata: string)
    requires IsPrefixedHex(sender, 40) && |sender| == 42 && IsPrefixedHex(calldata, 1)
    ensures DecodeIntended(TrackedPath(sender, calldata)) == Props(sender, calldata)
  {
    var w := TrackedPath(sender, calldata);
    TrackedPathInPattern(sender, calldata);
    assert w[1..43] == sender && w[44..|w| - 5] == calldata;
  }

  /** As written, decoding the tracked path loses the address's last digit, so the
      recorded sender is never the address requested. */
  lemma DecodeDropsLastAddressDigit(sender: string, calldata: string)
    requires IsPrefixedHex(sender, 40) && |sender| == 42 && IsPrefixedHex(calldata, 1)
    ensures Decode(TrackedPath(sender, calldata)) == Props(sender[..41], calldata)
    ensures Decode(TrackedPath(sender, calldata)).sender != sender
  {
    var w := TrackedPath(sender, calldata);
    TrackedPathInPattern(sender, calldata);
    assert w[1..42] == sender[..41] && w[44..|w| - 5] == calldata;
  }

  /** A path that starts with a match is decoded from that match alone: whatever
      follows, further matches included, is ignored. */
  lemma DecodeUsesFirstMatch(w: string, rest: string)
    requires InPattern(w)
    ensures Decode(w + rest) == Decode(w)
  {
    var p, n := w + rest, |w|;
    assert p[0..n] == w && w[0..n] == w;
    MatchAtComplete(p, 0, n);
    MatchAtComplete(w, 0, n);
    assert FirstMatch(p, 0) == Some((0, n));
    assert FirstMatch(w, 0) == Some((0, n));
    assert p[1..42] == w[1..42] && p[44..n - 5] == w[44..n - 5];
  }
}
