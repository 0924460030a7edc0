/**
 serial_lru (pattern_screen.py): one block cache of fixed capacity, requests one after the other. The cache is the last
 blocks of the recency order of everything accessed, so smaller caches are contained in larger ones.
 */
module SerialLru {
  import opened Common

  // ---------------------------------------------------------------------------------------
  // Recency

  /** `s` without `x`. */
  function Drop(s: seq<nat>, x: nat): seq<nat> {
    if x in s then RemoveAt(s, IndexOf(s, x)) else s
  }

  /** The blocks accessed so far, in the order of their last accesses. */
  function Recency(history: seq<nat>): seq<nat> {
    if history == [] then []
    else
      var n := |history| - 1;
      Drop(Recency(history[..n]), history[n]) + [history[n]]
  }

  /** The last `c` entries. */
  function LastOf(s: seq<nat>, c: nat): seq<nat> {
    s[|s| - Min(c, |s|)..]
  }

  lemma DropDistinct(s: seq<nat>, x: nat)
    requires Distinct(s)
    ensures Distinct(Drop(s, x) + [x]) && x !in Drop(s, x)
    ensures forall y :: y in Drop(s, x) <==> y in s && y != x
  {
    if x in s { RemoveAtDistinct(s, IndexOf(s, x)); }
  }

  /** Every block accessed is in the recency order, once. */
  lemma {:induction false} RecencyDistinct(history: seq<nat>)
    ensures Distinct(Recency(history)) && forall x :: x in Recency(history) <==> x in history
  {
    if history != [] {
      var n := |history| - 1;
      RecencyDistinct(history[..n]);
      DropDistinct(Recency(history[..n]), history[n]);
      assert history == history[..n] + [history[n]];
    }
  }

  /** `i` is where `x` was last accessed. */
  ghost predicate LastAt(history: seq<nat>, x: nat, i: nat) {
    i < |history| && history[i] == x && forall k :: i < k < |history| ==> history[k] != x
  }

  /** Of two blocks the one accessed last comes last. */
  ghost predicate ByLastAccess(history: seq<nat>, s: seq<nat>) {
    forall a, b, i, j :: 0 <= a < |s| && 0 <= b < |s| && LastAt(history, s[a], i) && LastAt(history, s[b], j) ==> (a < b <==> i < j)
  }

  lemma DropOrder(s: seq<nat>, x: nat, a: nat, b: nat)
    requires Distinct(s) && a < |Drop(s, x)| && b < |Drop(s, x)|
    ensures exists c, d :: 0 <= c < |s| && 0 <= d < |s| && s[c] == Drop(s, x)[a] && s[d] == Drop(s, x)[b] && (a < b <==> c < d)
  {
    hide IndexOf, Distinct;
    var at := if x in s then IndexOf(s, x) else |s|;
    var c, d := if a < at then a else a + 1, if b < at then b else b + 1;
    assert s[c] == Drop(s, x)[a] && s[d] == Drop(s, x)[b];
  }

  lemma {:induction false} RecencyOrdered(history: seq<nat>)
    ensures ByLastAccess(history, Recency(history))
  {
    if history != [] {
      var n := |history| - 1;
      var x, prior, now := history[n], Recency(history[..n]), Recency(history);
      RecencyDistinct(history[..n]);
      DropDistinct(prior, x);
      RecencyOrdered(history[..n]);
      forall a, b, i, j | 0 <= a < |now| && 0 <= b < |now| && LastAt(history, now[a], i) && LastAt(history, now[b], j)
        ensures a < b <==> i < j
      {
        if a < |now| - 1 && b < |now| - 1 {
          DropOrder(prior, x, a, b);
          var c, d :| 0 <= c < |prior| && 0 <= d < |prior| && prior[c] == Drop(prior, x)[a] && prior[d] == Drop(prior, x)[b] && (a < b <==> c < d);
          assert now[a] in Drop(prior, x) && now[b] in Drop(prior, x);
          assert LastAt(history[..n], prior[c], i) && LastAt(history[..n], prior[d], j);
        } else {
          LastIsNow(history, now[a], i);
          LastIsNow(history, now[b], j);
          assert a < |now| - 1 ==> now[a] in Drop(prior, x);
          assert b < |now| - 1 ==> now[b] in Drop(prior, x);
        }
      }
    }
  }

  lemma LastIsNow(history: seq<nat>, x: nat, i: nat)
    requires LastAt(history, x, i)
    ensures i == |history| - 1 <==> x == history[|history| - 1]
  {}

  // ---------------------------------------------------------------------------------------
  // One access

  lemma FirstIndex(s: seq<nat>, x: nat, i: nat)
    requires i < |s| && s[i] == x && x !in s[..i]
    ensures IndexOf(s, x) == i
  {}

  lemma DropRight(a: seq<nat>, s: seq<nat>, x: nat)
    requires x !in a
    ensures Drop(a + s, x) == a + Drop(s, x)
  {
    hide IndexOf, RemoveAt;
    if x in s {
      var i := IndexOf(s, x);
      RemoveAtRight(a, s, i);
      FirstIndex(a + s, x, |a| + i);
    }
  }

  lemma RemoveAtRight(a: seq<nat>, s: seq<nat>, i: nat)
    requires i < |s|
    ensures (a + s)[..|a| + i] == a + s[..i] && (a + s)[|a| + i] == s[i]
    ensures RemoveAt(a + s, |a| + i) == a + RemoveAt(s, i)
  {}

  lemma RemoveAtLeft(a: seq<nat>, s: seq<nat>, i: nat)
    requires i < |a|
    ensures (a + s)[..i] == a[..i] && (a + s)[i] == a[i]
    ensures RemoveAt(a + s, i) == RemoveAt(a, i) + s
  {}

  lemma Reassociate(a: seq<nat>, b: seq<nat>, c: seq<nat>)
    ensures (a + b) + c == a + (b + c)
  {}

  lemma DropLeft(a: seq<nat>, s: seq<nat>, x: nat)
    requires x in a
    ensures Drop(a + s, x) == Drop(a, x) + s
  {
    hide IndexOf, RemoveAt;
    var i := IndexOf(a, x);
    RemoveAtLeft(a, s, i);
    FirstIndex(a + s, x, i);
  }

  lemma LastOfTail(a: seq<nat>, b: seq<nat>, c: nat)
    requires |b| == c || (a == [] && |b| <= c)
    ensures LastOf(a + b, c) == b
  {}

  /** What an access leaves: the block moves to the back, and the oldest leaves an overfull cache. */
  function Accessed(cache: seq<nat>, b: nat, c: nat): seq<nat> {
    var moved := Drop(cache, b) + [b];
    if |moved| > c then moved[1..] else moved
  }

  /** The cache of `c` blocks after the accesses of `history`. */
  function CacheAfter(history: seq<nat>, c: nat): seq<nat> {
    LastOf(Recency(history), c)
  }

  /** A hit reorders the cache. */
  lemma AccessHit(before: seq<nat>, cache: seq<nat>, b: nat, c: nat)
    requires Distinct(before + cache) && (|cache| == c || (before == [] && |cache| <= c)) && b in cache
    ensures LastOf(Drop(before + cache, b) + [b], c) == Accessed(cache, b, c) && |Accessed(cache, b, c)| == |cache|
    ensures |Drop(cache, b) + [b]| <= c
  {
    ApartFrom(before, cache, b);
    DropRight(before, cache, b);
    assert |Drop(cache, b)| == |cache| - 1;
    hide Drop, Distinct;
    Reassociate(before, Drop(cache, b), [b]);
    LastOfTail(before, Drop(cache, b) + [b], c);
  }

  /** A miss in a full cache puts the block in the place of the oldest, wherever it was before. */
  lemma AccessMissFull(before: seq<nat>, cache: seq<nat>, b: nat, c: nat)
    requires |cache| == c >= 1 && b !in cache
    ensures LastOf(Drop(before + cache, b) + [b], c) == Accessed(cache, b, c) == cache[1..] + [b]
    ensures |Drop(cache, b) + [b]| == c + 1
  {
    if b in before { DropLeft(before, cache, b); } else { DropRight(before, cache, b); }
    var rest := if b in before then Drop(before, b) else before;
    assert Drop(cache, b) == cache;
    hide Drop;
    LastOfAppend(rest, cache, b);
    FirstGone(cache, b);
  }

  /** One more entry pushes the oldest of the last ones out. */
  lemma LastOfAppend(rest: seq<nat>, cache: seq<nat>, b: nat)
    requires cache != []
    ensures LastOf((rest + cache) + [b], |cache|) == cache[1..] + [b]
  {
    var s := (rest + cache) + [b];
    assert |s| == |rest| + |cache| + 1;
    forall k | 0 <= k < |cache| ensures s[|rest| + 1 + k] == (cache[1..] + [b])[k] {}
  }

  lemma FirstGone(cache: seq<nat>, b: nat)
    requires cache != []
    ensures (cache + [b])[1..] == cache[1..] + [b]
  {
  }

  /** A miss in a cache with room adds the block. */
  lemma AccessMissRoom(cache: seq<nat>, b: nat, c: nat)
    requires |cache| < c && b !in cache
    ensures LastOf(Drop([] + cache, b) + [b], c) == Accessed(cache, b, c) == cache + [b]
    ensures |Drop(cache, b) + [b]| <= c
  {
    assert [] + cache == cache && Drop(cache, b) == cache;
  }

  /** An access keeps the cache the last blocks of the recency order. */
  lemma AccessKeepsLast(history: seq<nat>, b: nat, c: nat)
    requires c >= 1
    ensures CacheAfter(history + [b], c) == Accessed(CacheAfter(history, c), b, c)
    ensures |CacheAfter(history + [b], c)| - |CacheAfter(history, c)| ==
            (if b in CacheAfter(history, c) then 0 else 1)
            - (if |Drop(CacheAfter(history, c), b) + [b]| > c then 1 else 0)
  {
    hide Recency, Drop, Accessed, Distinct;
    RecencyDistinct(history);
    RecencyNext(history, b);
    var r := Recency(history);
    var cache := CacheAfter(history, c);
    var before := r[..|r| - |cache|];
    assert r == before + cache;
    if b in cache { AccessHit(before, cache, b, c); }
    else if |cache| == c { AccessMissFull(before, cache, b, c); }
    else { assert before == []; AccessMissRoom(cache, b, c); }
  }

  lemma RecencyNext(history: seq<nat>, b: nat)
    ensures Recency(history + [b]) == Drop(Recency(history), b) + [b]
  {
    assert (history + [b])[..|history|] == history;
  }

  lemma ApartFrom(a: seq<nat>, s: seq<nat>, x: nat)
    requires Distinct(a + s) && x in s
    ensures x !in a
  {
    var i := IndexOf(s, x);
    assert (a + s)[|a| + i] == x;
    assert forall k :: 0 <= k < |a| ==> (a + s)[k] == a[k];
  }

  // ---------------------------------------------------------------------------------------
  // The screening report

  /** The leading blocks found in the cache. */
  function LeadingHits(cache: seq<nat>, blocks: seq<nat>): (n: nat)
    ensures n <= |blocks|
    ensures forall i :: 0 <= i < n ==> blocks[i] in cache
    ensures n < |blocks| ==> blocks[n] !in cache
  {
    if blocks == [] || blocks[0] !in cache then 0 else 1 + LeadingHits(cache, blocks[1..])
  }

  /** All accesses of the first `n` requests. */
  function Accesses(requests: seq<seq<nat>>, n: nat): seq<nat>
    requires n <= |requests|
  {
    if n == 0 then [] else Accesses(requests, n - 1) + requests[n - 1]
  }

  /** The hits of request `k`: it looks the cache up before its own accesses. */
  function HitsOf(requests: seq<seq<nat>>, k: nat, c: nat): nat
    requires k < |requests|
  {
    LeadingHits(CacheAfter(Accesses(requests, k), c), requests[k])
  }

  function HitsTotal(requests: seq<seq<nat>>, n: nat, c: nat): nat
    requires n <= |requests|
  {
    if n == 0 then 0 else HitsTotal(requests, n - 1, c) + HitsOf(requests, n - 1, c)
  }

  function Oversized(requests: seq<seq<nat>>, n: nat, c: nat): nat
    requires n <= |requests|
  {
    if n == 0 then 0 else Oversized(requests, n - 1, c) + (if |requests[n - 1]| > c then 1 else 0)
  }

  /** Accesses that did not find their block. */
  function Absent(history: seq<nat>, c: nat): nat {
    if history == [] then 0
    else
      var n := |history| - 1;
      Absent(history[..n], c) + (if history[n] in CacheAfter(history[..n], c) then 0 else 1)
  }

  datatype Report = Report(rates: seq<real>, hits: nat, blocks: nat, evicted: nat, oversized: nat)

  /** The errors of serial_lru: its two checks, and the mean of no rates. */
  datatype Result = Fails(why: Failure) | Ok(report: Report)
  datatype Failure = BadCapacity | NoBlocks | NoRequests

  function Rate(hits: nat, blocks: seq<nat>): real
    requires blocks != []
  {
    hits as real / |blocks| as real
  }

  /** The first `n` requests have blocks. */
  predicate AllFilled(requests: seq<seq<nat>>, n: nat)
    requires n <= |requests|
  {
    forall k :: 0 <= k < n ==> requests[k] != []
  }

  ghost predicate IsReport(r: Report, requests: seq<seq<nat>>, n: nat, c: nat)
    requires n <= |requests| && AllFilled(requests, n)
  {
    && |r.rates| == n
    && (forall k :: 0 <= k < n ==> r.rates[k] == Rate(HitsOf(requests, k, c), requests[k]))
    && r.hits == HitsTotal(requests, n, c) && r.blocks == |Accesses(requests, n)|
    && r.oversized == Oversized(requests, n, c)
    && r.evicted + |CacheAfter(Accesses(requests, n), c)| == Absent(Accesses(requests, n), c)
  }

  /** The contiguous lookup. */
  method Lookup(cache: seq<nat>, blocks: seq<nat>) returns (hits: nat)
    ensures hits == LeadingHits(cache, blocks)
  {
    hits := 0;
    while hits < |blocks| && blocks[hits] in cache
      invariant hits <= |blocks| && LeadingHits(cache, blocks) == hits + LeadingHits(cache, blocks[hits..])
    {
      assert blocks[hits..][1..] == blocks[hits + 1..];
      hits := hits + 1;
    }
  }

  /** The accesses of one request. */
  method AccessAll(cache: seq<nat>, blocks: seq<nat>, c: nat, evictions: nat, ghost history: seq<nat>)
    returns (after: seq<nat>, evicted: nat)
    requires c >= 1 && cache == CacheAfter(history, c) && evictions + |cache| == Absent(history, c)
    ensures after == CacheAfter(history + blocks, c) && evicted + |after| == Absent(history + blocks, c)
  {
    hide CacheAfter, Absent;
    after, evicted := cache, evictions;
    assert history + blocks[..0] == history;
    for k := 0 to |blocks|
      invariant after == CacheAfter(history + blocks[..k], c) && evicted + |after| == Absent(history + blocks[..k], c)
    {
      assert history + blocks[..k + 1] == (history + blocks[..k]) + [blocks[k]];
      AccessKeepsLast(history + blocks[..k], blocks[k], c);
      AbsentNext(history + blocks[..k], blocks[k], c);
      var moved := Drop(after, blocks[k]) + [blocks[k]];
      if |moved| > c {
        moved := moved[1..];
        evicted := evicted + 1;
      }
      after := moved;
    }
    assert blocks[..|blocks|] == blocks;
  }

  lemma AbsentNext(history: seq<nat>, b: nat, c: nat)
    ensures Absent(history + [b], c) == Absent(history, c) + (if b in CacheAfter(history, c) then 0 else 1)
  {
    assert (history + [b])[..|history|] == history;
  }

  /** One more request in the report. */
  function WithRequest(r: Report, blocks: seq<nat>, c: nat, hits: nat, evicted: nat): Report
    requires blocks != []
  {
    Report(r.rates + [Rate(hits, blocks)], r.hits + hits, r.blocks + |blocks|, evicted,
           r.oversized + (if |blocks| > c then 1 else 0))
  }

  lemma ReportEvictions(r: Report, requests: seq<seq<nat>>, n: nat, c: nat)
    requires n <= |requests| && AllFilled(requests, n) && IsReport(r, requests, n, c)
    ensures r.evicted + |CacheAfter(Accesses(requests, n), c)| == Absent(Accesses(requests, n), c)
  {}

  lemma ReportNone(requests: seq<seq<nat>>, c: nat)
    ensures IsReport(Report([], 0, 0, 0, 0), requests, 0, c)
  {
    assert Recency([]) == [];
  }

  lemma ReportNext(r: Report, requests: seq<seq<nat>>, n: nat, c: nat, hits: nat, evicted: nat)
    requires n < |requests| && AllFilled(requests, n + 1) && IsReport(r, requests, n, c)
    requires hits == HitsOf(requests, n, c)
    requires evicted + |CacheAfter(Accesses(requests, n) + requests[n], c)| == Absent(Accesses(requests, n) + requests[n], c)
    ensures IsReport(WithRequest(r, requests[n], c, hits, evicted), requests, n + 1, c)
    ensures Accesses(requests, n + 1) == Accesses(requests, n) + requests[n]
  {
    hide HitsOf, CacheAfter, Absent, Rate;
  }

  lemma NotFilled(requests: seq<seq<nat>>, n: nat)
    requires n < |requests| && requests[n] == []
    ensures !AllFilled(requests, |requests|)
  {}

  lemma FilledNext(requests: seq<seq<nat>>, n: nat)
    requires n < |requests| && AllFilled(requests, n) && requests[n] != []
    ensures AllFilled(requests, n + 1)
  {}

  /** serial_lru. */
  method SerialLru(requests: seq<seq<nat>>, capacity: int) returns (result: Result)
    ensures result == Fails(BadCapacity) <==> capacity < 1
    ensures result == Fails(NoBlocks) <==> capacity >= 1 && !AllFilled(requests, |requests|)
    ensures result == Fails(NoRequests) <==> capacity >= 1 && requests == []
    ensures result.Ok? ==> AllFilled(requests, |requests|) && capacity >= 1
                           && IsReport(result.report, requests, |requests|, capacity)
  {
    if capacity < 1 { return Fails(BadCapacity); }
    var c: nat := capacity;
    var cache: seq<nat> := [];
    var r := Report([], 0, 0, 0, 0);
    assert Recency([]) == [];
    ReportNone(requests, c);
    hide CacheAfter, Absent, LeadingHits, IsReport, WithRequest, Accesses, AllFilled;
    for n := 0 to |requests|
      invariant AllFilled(requests, n) && cache == CacheAfter(Accesses(requests, n), c) && IsReport(r, requests, n, c)
    {
      var blocks := requests[n];
      if blocks == [] {
        NotFilled(requests, n);
        return Fails(NoBlocks);
      }
      FilledNext(requests, n);
      var hits := Lookup(cache, blocks);
      ReportEvictions(r, requests, n, c);
      var next, evicted := AccessAll(cache, blocks, c, r.evicted, Accesses(requests, n));
      ReportNext(r, requests, n, c, hits, evicted);
      r := WithRequest(r, blocks, c, hits, evicted);
      cache := next;
    }
    result := if requests == [] then Fails(NoRequests) else Ok(r);
  }

  // ---------------------------------------------------------------------------------------
  // Larger caches

  /** A smaller cache is what a larger one used last. */
  lemma CacheInclusion(history: seq<nat>, c: nat, d: nat)
    requires c <= d
    ensures CacheAfter(history, c) == LastOf(CacheAfter(history, d), c)
    ensures forall x :: x in CacheAfter(history, c) ==> x in CacheAfter(history, d)
  {
    hide Recency, LastOf;
    LastOfLast(Recency(history), c, d);
    LastOfMembers(CacheAfter(history, d), c);
  }

  lemma LastOfLast(s: seq<nat>, c: nat, d: nat)
    requires c <= d
    ensures LastOf(LastOf(s, d), c) == LastOf(s, c)
  {}

  lemma LastOfMembers(s: seq<nat>, c: nat)
    ensures forall x :: x in LastOf(s, c) ==> x in s
  {}

  lemma {:induction false} LeadingMore(small: seq<nat>, large: seq<nat>, blocks: seq<nat>)
    requires forall x :: x in small ==> x in large
    ensures LeadingHits(small, blocks) <= LeadingHits(large, blocks)
  {
    if blocks != [] && blocks[0] in small { LeadingMore(small, large, blocks[1..]); }
  }

  /** A request's contiguous hits never fall with capacity. */
  lemma HitsMonotone(requests: seq<seq<nat>>, k: nat, c: nat, d: nat)
    requires k < |requests| && c <= d
    ensures HitsOf(requests, k, c) <= HitsOf(requests, k, d)
  {
    hide CacheAfter, Recency, LastOf, LeadingHits;
    CacheInclusion(Accesses(requests, k), c, d);
    LeadingMore(CacheAfter(Accesses(requests, k), c), CacheAfter(Accesses(requests, k), d), requests[k]);
  }

  lemma {:induction false} HitsTotalMonotone(requests: seq<seq<nat>>, n: nat, c: nat, d: nat)
    requires n <= |requests| && c <= d
    ensures HitsTotal(requests, n, c) <= HitsTotal(requests, n, d)
  {
    hide HitsOf;
    if n > 0 {
      HitsTotalMonotone(requests, n - 1, c, d);
      HitsMonotone(requests, n - 1, c, d);
    }
  }

  /** Nor do misses rise. */
  lemma {:induction false} AbsentMonotone(history: seq<nat>, c: nat, d: nat)
    requires c <= d
    ensures Absent(history, d) <= Absent(history, c)
  {
    hide CacheAfter, Recency, LastOf;
    if history != [] {
      var n := |history| - 1;
      AbsentMonotone(history[..n], c, d);
      CacheInclusion(history[..n], c, d);
    }
  }
}
