/**
 materialize (materialize.py) over the identity stream of session_gen.py: block identities written in base |alphabet|
 become token prompts that share a prefix exactly where the identities do.
 */
module Materialise {
  import opened Common
  import Division

  // ---------------------------------------------------------------------------------------
  // Digits

  function Power(base: nat, n: nat): nat {
    if n == 0 then 1 else base * Power(base, n - 1)
  }

  /** divmod. */
  function Quotient(x: nat, base: nat): nat
    requires base > 0
  {
    x / base
  }

  function Remainder(x: nat, base: nat): (d: nat)
    requires base > 0
    ensures d < base
  {
    x % base
  }

  predicate Written(tokens: seq<nat>, alphabet: seq<nat>) {
    forall i :: 0 <= i < |tokens| ==> tokens[i] in alphabet
  }

  lemma WrittenCons(letter: nat, tokens: seq<nat>, alphabet: seq<nat>)
    requires letter in alphabet && Written(tokens, alphabet)
    ensures Written([letter] + tokens, alphabet)
  {}

  lemma WrittenNone(alphabet: seq<nat>)
    ensures Written([], alphabet)
  {}

  /** `x` in `n` digits, least significant first, written with the letters of the alphabet. */
  function Encode(x: nat, alphabet: seq<nat>, n: nat): (tokens: seq<nat>)
    requires alphabet != []
    ensures |tokens| == n && Written(tokens, alphabet)
    decreases n
  {
    hide Quotient, Remainder, Written;
    if n == 0 then
      WrittenNone(alphabet);
      []
    else
      var letter, rest := alphabet[Remainder(x, |alphabet|)], Encode(Quotient(x, |alphabet|), alphabet, n - 1);
      WrittenCons(letter, rest, alphabet);
      [letter] + rest
  }

  /** A digit and the number that the others write. */
  function Combine(digit: nat, rest: nat, base: nat): nat {
    digit + base * rest
  }

  /** What the letters stand for. */
  function Decode(tokens: seq<nat>, alphabet: seq<nat>): nat
    requires Written(tokens, alphabet)
  {
    if tokens == [] then 0 else Combine(IndexOf(alphabet, tokens[0]), Decode(tokens[1..], alphabet), |alphabet|)
  }

  lemma LetterIndex(alphabet: seq<nat>, d: nat)
    requires Distinct(alphabet) && d < |alphabet|
    ensures IndexOf(alphabet, alphabet[d]) == d
  {}

  lemma DigitsSplit(x: nat, base: nat)
    requires base > 0
    ensures x == Combine(Remainder(x, base), Quotient(x, base), base)
  {}

  lemma DigitsBound(x: nat, base: nat, n: nat)
    requires base > 0 && n > 0 && x < Power(base, n)
    ensures Quotient(x, base) < Power(base, n - 1)
  {
    var rest := Power(base, n - 1);
    assert x < base * rest;
    hide Power;
    if x / base >= rest { Division.MulMono(rest, x / base, base); }
  }

  lemma DecodeCons(letter: nat, tokens: seq<nat>, alphabet: seq<nat>)
    requires letter in alphabet && Written(tokens, alphabet)
    ensures Written([letter] + tokens, alphabet)
    ensures Decode([letter] + tokens, alphabet) == Combine(IndexOf(alphabet, letter), Decode(tokens, alphabet), |alphabet|)
  {
    hide IndexOf, Combine;
    assert ([letter] + tokens)[1..] == tokens;
  }

  /** An identity with enough digits is read back from its tokens. */
  lemma {:induction false} DecodeEncode(x: nat, alphabet: seq<nat>, n: nat)
    requires Distinct(alphabet) && alphabet != [] && x < Power(|alphabet|, n)
    ensures Decode(Encode(x, alphabet, n), alphabet) == x
    decreases n
  {
    hide Quotient, Remainder, Written, IndexOf, Combine;
    if n > 0 {
      var base := |alphabet|;
      DigitsBound(x, base, n);
      DigitsSplit(x, base);
      hide Power;
      LetterIndex(alphabet, Remainder(x, base));
      DecodeEncode(Quotient(x, base), alphabet, n - 1);
      DecodeCons(alphabet[Remainder(x, base)], Encode(Quotient(x, base), alphabet, n - 1), alphabet);
    }
  }

  lemma DigitJoin(d: nat, rest: nat, base: nat)
    requires d < base
    ensures Remainder(Combine(d, rest, base), base) == d && Quotient(Combine(d, rest, base), base) == rest
  {
    var x := d + base * rest;
    Division.DivUnique(x, base, rest, d);
    assert x == x / base * base + x % base;
  }

  /** Every block of letters is written by exactly what it reads as. */
  lemma {:induction false} EncodeDecode(tokens: seq<nat>, alphabet: seq<nat>)
    requires Distinct(alphabet) && alphabet != [] && Written(tokens, alphabet)
    ensures Encode(Decode(tokens, alphabet), alphabet, |tokens|) == tokens
  {
    hide Quotient, Remainder, Combine;
    if tokens != [] {
      EncodeDecode(tokens[1..], alphabet);
      DigitJoin(IndexOf(alphabet, tokens[0]), Decode(tokens[1..], alphabet), |alphabet|);
    }
  }

  /** block_tokens without its memo. */
  method WriteDigits(identity: nat, alphabet: seq<nat>, size: nat) returns (digits: seq<nat>)
    requires alphabet != []
    ensures digits == Encode(identity, alphabet, size)
  {
    hide Quotient, Remainder;
    digits := [];
    var value: nat := identity;
    for k := 0 to size
      invariant digits + Encode(value, alphabet, size - k) == Encode(identity, alphabet, size)
    {
      var digit := Remainder(value, |alphabet|);
      assert digits + Encode(value, alphabet, size - k) ==
             (digits + [alphabet[digit]]) + Encode(Quotient(value, |alphabet|), alphabet, size - k - 1);
      value := Quotient(value, |alphabet|);
      digits := digits + [alphabet[digit]];
    }
    assert digits + [] == digits;
  }

  // ---------------------------------------------------------------------------------------
  // Blocks

  /** The tokens of so many blocks. */
  function Span(blocks: nat, size: nat): nat {
    blocks * size
  }

  /** The full blocks of so many tokens. */
  function Full(tokens: nat, size: nat): nat
    requires size > 0
  {
    tokens / size
  }

  /** The tokens of a run of blocks. */
  function Tokens(ids: seq<nat>, alphabet: seq<nat>, size: nat): seq<nat>
    requires alphabet != []
  {
    if ids == [] then [] else Tokens(ids[..|ids| - 1], alphabet, size) + Encode(ids[|ids| - 1], alphabet, size)
  }

  lemma {:induction false} TokensLength(ids: seq<nat>, alphabet: seq<nat>, size: nat)
    requires alphabet != []
    ensures |Tokens(ids, alphabet, size)| == Span(|ids|, size)
  {
    hide Encode;
    if ids != [] {
      TokensLength(ids[..|ids| - 1], alphabet, size);
      assert Span(|ids| - 1, size) + size == Span(|ids|, size);
    }
  }

  /** The first blocks have the first tokens. */
  lemma {:induction false} TokensTake(ids: seq<nat>, alphabet: seq<nat>, size: nat, k: nat)
    requires alphabet != [] && k <= |ids|
    ensures Span(k, size) <= |Tokens(ids, alphabet, size)| && Tokens(ids, alphabet, size)[..Span(k, size)] == Tokens(ids[..k], alphabet, size)
    decreases |ids|
  {
    hide Encode, Span;
    TokensLength(ids[..k], alphabet, size);
    if k == |ids| {
      assert ids[..k] == ids;
    } else {
      var n := |ids| - 1;
      TokensTake(ids[..n], alphabet, size, k);
      assert ids[..n][..k] == ids[..k];
    }
  }

  /** Runs of as many blocks with the same tokens are the same identities. */
  lemma {:induction false} TokensInjective(a: seq<nat>, b: seq<nat>, alphabet: seq<nat>, size: nat)
    requires Distinct(alphabet) && alphabet != [] && |a| == |b|
    requires (forall i :: 0 <= i < |a| ==> a[i] < Power(|alphabet|, size)) && forall i :: 0 <= i < |b| ==> b[i] < Power(|alphabet|, size)
    requires Tokens(a, alphabet, size) == Tokens(b, alphabet, size)
    ensures a == b
  {
    hide Encode, Decode, Span, Power, Written, Distinct;
    if a != [] {
      var n := |a| - 1;
      TokensLength(a[..n], alphabet, size);
      TokensLength(b[..n], alphabet, size);
      SplitEqual(Tokens(a[..n], alphabet, size), Encode(a[n], alphabet, size), Tokens(b[..n], alphabet, size), Encode(b[n], alphabet, size));
      TokensInjective(a[..n], b[..n], alphabet, size);
      DecodeEncode(a[n], alphabet, size);
      DecodeEncode(b[n], alphabet, size);
      assert a == a[..n] + [a[n]] && b == b[..n] + [b[n]];
    }
  }

  lemma SplitEqual<T>(a: seq<T>, b: seq<T>, c: seq<T>, d: seq<T>)
    requires |a| == |c| && a + b == c + d
    ensures a == c && b == d
  {
    assert a == (a + b)[..|a|] && c == (c + d)[..|c|];
    assert b == (a + b)[|a|..] && d == (c + d)[|c|..];
  }

  // ---------------------------------------------------------------------------------------
  // The identity stream

  /** What a block's identity is a digest of. */
  datatype BlockKey = InPrefix(group: nat, index: nat) | InSession(session: nat, index: nat)

  /** The identities of the first `count` blocks of a session: its group's prefix, then its own. */
  function Stream(digest: BlockKey -> nat, count: nat, shared: nat, group: nat, session: nat): (ids: seq<nat>)
    ensures |ids| == count
    ensures forall i :: 0 <= i < count ==> ids[i] == digest(if i < shared then InPrefix(group, i) else InSession(session, i))
  {
    seq(count, i requires 0 <= i < count => digest(if i < shared then InPrefix(group, i) else InSession(session, i)))
  }

  /** _stream_block_hashes. */
  method StreamBlockHashes(digest: BlockKey -> nat, count: nat, shared: nat, group: nat, session: nat) returns (hashes: seq<nat>)
    ensures hashes == Stream(digest, count, shared, group, session)
  {
    hashes := [];
    for index := 0 to count
      invariant |hashes| == index && forall i :: 0 <= i < index ==> hashes[i] == Stream(digest, count, shared, group, session)[i]
    {
      hashes := hashes + [if index < shared then digest(InPrefix(group, index)) else digest(InSession(session, index))];
    }
  }

  // ---------------------------------------------------------------------------------------
  // materialize

  datatype Request = Request(session: nat, group: nat, promptTokens: nat, hashes: seq<nat>)

  datatype Failure = BadHeader | BadAlphabet | TooFewCodes | Unaligned | WrongHashes(index: nat)

  datatype Result = Fails(why: Failure) | Ok(prompts: seq<seq<nat>>)

  const IDENTITIES: nat := 0x1_0000_0000_0000_0000

  /** The blocks a prompt touches, the last one possibly in part. */
  function Touched(tokens: nat, size: nat): nat
    requires size > 0
  {
    Division.CeilMono(0, tokens, size);
    Division.CeilMultiple(0, size);
    Division.Ceil(tokens, size)
  }

  ghost function Ids(digest: BlockKey -> nat, q: Request, shared: nat, size: nat): seq<nat>
    requires size > 0
  {
    Stream(digest, Touched(q.promptTokens, size), shared, q.group, q.session)
  }

  lemma TouchedCovers(tokens: nat, size: nat)
    requires size > 0
    ensures tokens <= Span(Touched(tokens, size), size) && Full(tokens, size) <= Touched(tokens, size)
  {
    var x := tokens + size - 1;
    assert x == x / size * size + x % size;
    Division.FullAtMostCeil(tokens, size);
  }

  /** The recorded hashes are those of the session's stream over the full blocks. */
  ghost predicate HashesFit(digest: BlockKey -> nat, q: Request, shared: nat, size: nat)
    requires size > 0
  {
    TouchedCovers(q.promptTokens, size);
    Ids(digest, q, shared, size)[..Full(q.promptTokens, size)] == q.hashes
  }

  /** A prompt of the requested length that writes the session's stream. */
  ghost predicate Writes(prompt: seq<nat>, digest: BlockKey -> nat, q: Request, shared: nat, alphabet: seq<nat>, size: nat)
    requires size > 0 && alphabet != []
  {
    && HashesFit(digest, q, shared, size) && |prompt| == q.promptTokens
    && prompt <= Tokens(Ids(digest, q, shared, size), alphabet, size)
  }

  /** The memo holds what block_tokens would compute. */
  ghost predicate Memo(encoded: map<nat, seq<nat>>, alphabet: seq<nat>, size: nat)
    requires alphabet != []
  {
    forall id :: id in encoded ==> encoded[id] == Encode(id, alphabet, size)
  }

  /** The blocks of one prompt, through the memo. */
  method WriteBlocks(ids: seq<nat>, alphabet: seq<nat>, size: nat, memo: map<nat, seq<nat>>)
    returns (tokens: seq<nat>, encoded: map<nat, seq<nat>>)
    requires alphabet != [] && Memo(memo, alphabet, size)
    ensures tokens == Tokens(ids, alphabet, size) && Memo(encoded, alphabet, size)
  {
    tokens, encoded := [], memo;
    for k := 0 to |ids|
      invariant tokens == Tokens(ids[..k], alphabet, size) && Memo(encoded, alphabet, size)
    {
      if ids[k] !in encoded {
        var digits := WriteDigits(ids[k], alphabet, size);
        encoded := encoded[ids[k] := digits];
      }
      assert ids[..k + 1][..k] == ids[..k];
      tokens := tokens + encoded[ids[k]];
    }
    assert ids[..|ids|] == ids;
  }

  /** The checks of the header and the alphabet, in order. */
  function Refusal(alphabet: seq<nat>, size: nat, prefix: nat): Option<Failure> {
    if size == 0 then Some(BadHeader)
    else if |Elements(alphabet)| != |alphabet| || |alphabet| < 2 then Some(BadAlphabet)
    else if Power(|alphabet|, size) < IDENTITIES then Some(TooFewCodes)
    else if prefix % size != 0 then Some(Unaligned)
    else None
  }

  /** One prompt; None if the recorded hashes are not those of the session's stream. */
  method MaterialiseOne(q: Request, digest: BlockKey -> nat, shared: nat, alphabet: seq<nat>, size: nat, memo: map<nat, seq<nat>>)
    returns (prompt: Option<seq<nat>>, encoded: map<nat, seq<nat>>)
    requires size > 0 && alphabet != [] && Memo(memo, alphabet, size)
    ensures prompt.Some? <==> HashesFit(digest, q, shared, size)
    ensures prompt.Some? ==> Writes(prompt.value, digest, q, shared, alphabet, size)
    ensures Memo(encoded, alphabet, size)
  {
    hide Tokens, HashesFit, Memo, Stream, Writes, Touched, Full, Span;
    var hashes := StreamBlockHashes(digest, Touched(q.promptTokens, size), shared, q.group, q.session);
    TouchedCovers(q.promptTokens, size);
    FitIs(digest, q, shared, size);
    if hashes[..Full(q.promptTokens, size)] != q.hashes { return None, memo; }
    var tokens, more := WriteBlocks(hashes, alphabet, size, memo);
    TokensLength(hashes, alphabet, size);
    WritesIs(tokens[..q.promptTokens], digest, q, shared, alphabet, size);
    return Some(tokens[..q.promptTokens]), more;
  }

  method Materialise(requests: seq<Request>, digest: BlockKey -> nat, alphabet: seq<nat>, size: nat,
                     prefix: nat) returns (r: Result)
    ensures Refusal(alphabet, size, prefix).Some? ==> r == Fails(Refusal(alphabet, size, prefix).value)
    ensures Refusal(alphabet, size, prefix).None? ==>
              && size > 0 && alphabet != [] && Distinct(alphabet)
              && (r.Ok? <==> forall k :: 0 <= k < |requests| ==> HashesFit(digest, requests[k], prefix / size, size))
              && (r.Fails? ==> r.why.WrongHashes? && r.why.index < |requests|
                               && !HashesFit(digest, requests[r.why.index], prefix / size, size))
    ensures r.Ok? ==> size > 0 && alphabet != [] && |r.prompts| == |requests|
                      && forall k :: 0 <= k < |requests| ==>
                           Writes(r.prompts[k], digest, requests[k], prefix / size, alphabet, size)
  {
    var refusal := Refusal(alphabet, size, prefix);
    if refusal.Some? { return Fails(refusal.value); }
    DistinctByCount(alphabet);
    hide Tokens, Power, HashesFit, Memo, Refusal, Stream, Elements, Writes, Distinct;
    var shared := prefix / size;
    var prompts: seq<seq<nat>> := [];
    var encoded: map<nat, seq<nat>> := map[];
    NoMemo(alphabet, size);
    for n := 0 to |requests|
      invariant |prompts| == n && Memo(encoded, alphabet, size)
      invariant forall k :: 0 <= k < n ==>
                  HashesFit(digest, requests[k], shared, size) && Writes(prompts[k], digest, requests[k], shared, alphabet, size)
    {
      var prompt, more := MaterialiseOne(requests[n], digest, shared, alphabet, size, encoded);
      if prompt.None? { return Fails(WrongHashes(n)); }
      prompts := prompts + [prompt.value];
      encoded := more;
    }
    r := Ok(prompts);
  }

  lemma NoMemo(alphabet: seq<nat>, size: nat)
    requires alphabet != []
    ensures Memo(map[], alphabet, size)
  {}

  lemma FitIs(digest: BlockKey -> nat, q: Request, shared: nat, size: nat)
    requires size > 0 && Full(q.promptTokens, size) <= Touched(q.promptTokens, size)
    ensures HashesFit(digest, q, shared, size) <==>
              Stream(digest, Touched(q.promptTokens, size), shared, q.group, q.session)[..Full(q.promptTokens, size)] == q.hashes
  {}

  lemma WritesIs(prompt: seq<nat>, digest: BlockKey -> nat, q: Request, shared: nat, alphabet: seq<nat>, size: nat)
    requires size > 0 && alphabet != [] && HashesFit(digest, q, shared, size) && |prompt| == q.promptTokens
    requires prompt <= Tokens(Ids(digest, q, shared, size), alphabet, size)
    ensures Writes(prompt, digest, q, shared, alphabet, size)
  {}

  // ---------------------------------------------------------------------------------------
  // Prefix identity

  /** `k` full blocks of both prompts agree exactly if the `k` first recorded identities do. */
  lemma PrefixIdentity(a: seq<nat>, b: seq<nat>, digest: BlockKey -> nat, p: Request, q: Request, shared: nat,
                       alphabet: seq<nat>, size: nat, k: nat)
    requires size > 0 && Distinct(alphabet) && alphabet != [] && Power(|alphabet|, size) >= IDENTITIES
    requires forall key :: digest(key) < IDENTITIES
    requires Writes(a, digest, p, shared, alphabet, size) && Writes(b, digest, q, shared, alphabet, size)
    requires k <= Full(p.promptTokens, size) && k <= Full(q.promptTokens, size)
    ensures Span(k, size) <= |a| && Span(k, size) <= |b| && k <= |p.hashes| && k <= |q.hashes|
    ensures a[..Span(k, size)] == b[..Span(k, size)] <==> p.hashes[..k] == q.hashes[..k]
  {
    hide Tokens, Power, Stream;
    LeadingTokens(a, digest, p, shared, alphabet, size, k);
    LeadingTokens(b, digest, q, shared, alphabet, size, k);
    StreamBelow(digest, p, shared, size);
    StreamBelow(digest, q, shared, size);
    hide Writes, Ids;
    if a[..Span(k, size)] == b[..Span(k, size)] { TokensInjective(p.hashes[..k], q.hashes[..k], alphabet, size); }
  }

  lemma StreamBelow(digest: BlockKey -> nat, q: Request, shared: nat, size: nat)
    requires size > 0 && HashesFit(digest, q, shared, size) && forall key :: digest(key) < IDENTITIES
    ensures forall i :: 0 <= i < |q.hashes| ==> q.hashes[i] < IDENTITIES
  {
    TouchedCovers(q.promptTokens, size);
    forall i | 0 <= i < |q.hashes| ensures q.hashes[i] < IDENTITIES {
      assert q.hashes[i] == Ids(digest, q, shared, size)[i];
    }
  }

  /** The first full blocks of a prompt write the first recorded identities. */
  lemma LeadingTokens(prompt: seq<nat>, digest: BlockKey -> nat, q: Request, shared: nat, alphabet: seq<nat>, size: nat, k: nat)
    requires size > 0 && alphabet != [] && Writes(prompt, digest, q, shared, alphabet, size) && k <= Full(q.promptTokens, size)
    ensures k <= |q.hashes| && Span(k, size) <= |prompt| && prompt[..Span(k, size)] == Tokens(q.hashes[..k], alphabet, size)
  {
    hide Tokens, Stream;
    TouchedCovers(q.promptTokens, size);
    var ids := Ids(digest, q, shared, size);
    assert q.hashes[..k] == ids[..k];
    Division.FullTokens(q.promptTokens, size, k);
    TokensTake(ids, alphabet, size, k);
  }

  /** Two sessions of one group share the tokens of the common prefix, whatever their identities. */
  lemma SharedPrefix(a: seq<nat>, b: seq<nat>, digest: BlockKey -> nat, p: Request, q: Request, shared: nat,
                     alphabet: seq<nat>, size: nat, k: nat)
    requires size > 0 && alphabet != [] && p.group == q.group
    requires Writes(a, digest, p, shared, alphabet, size) && Writes(b, digest, q, shared, alphabet, size)
    requires k <= shared && k <= Full(p.promptTokens, size) && k <= Full(q.promptTokens, size)
    ensures Span(k, size) <= |a| && Span(k, size) <= |b| && a[..Span(k, size)] == b[..Span(k, size)]
  {
    hide Tokens, Span, Full, Writes;
    LeadingTokens(a, digest, p, shared, alphabet, size, k);
    LeadingTokens(b, digest, q, shared, alphabet, size, k);
    WritesFit(a, digest, p, shared, alphabet, size);
    WritesFit(b, digest, q, shared, alphabet, size);
    SharedIds(digest, p, q, shared, size, k);
  }

  lemma WritesFit(prompt: seq<nat>, digest: BlockKey -> nat, q: Request, shared: nat, alphabet: seq<nat>, size: nat)
    requires size > 0 && alphabet != [] && Writes(prompt, digest, q, shared, alphabet, size)
    ensures HashesFit(digest, q, shared, size)
  {
    hide HashesFit, Tokens;
  }

  /** The identities of the shared prefix are the group's. */
  lemma SharedIds(digest: BlockKey -> nat, p: Request, q: Request, shared: nat, size: nat, k: nat)
    requires size > 0 && HashesFit(digest, p, shared, size) && HashesFit(digest, q, shared, size) && p.group == q.group
    requires k <= shared && k <= |p.hashes| && k <= |q.hashes|
    ensures p.hashes[..k] == q.hashes[..k]
  {
    hide Full, Touched;
    TouchedCovers(p.promptTokens, size);
    TouchedCovers(q.promptTokens, size);
    forall i | 0 <= i < k ensures p.hashes[i] == digest(InPrefix(p.group, i)) == q.hashes[i] {
      assert p.hashes[i] == Ids(digest, p, shared, size)[i] && q.hashes[i] == Ids(digest, q, shared, size)[i];
    }
  }
}
