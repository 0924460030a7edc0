/**
 The engine's block pool (routing_sim.py, Engine.__init__ to Engine._grow): a least-recently-freed
 queue of unreferenced blocks, a reference count per block, and a prefix cache mapping keys to blocks.
 */
module BlockPool {
  import opened Common

  /** A cache key: a block of the trace prompt, or the `index`-th output-dependent block of one request. */
  datatype Key = Trace(id: nat) | Out(rid: nat, index: nat)

  datatype Pool = Pool(free: seq<nat>, key: seq<Option<Key>>, ref: seq<int>, cached: map<Key, nat>)

  /** What the operations need to be defined at all. */
  predicate Shape(p: Pool) {
    && |p.key| == |p.ref|
    && Below(p.free, |p.ref|)
  }

  /** `cached` and `block_key` are mutually inverse. */
  ghost predicate CacheInverse(p: Pool) {
    && (forall k :: k in p.cached ==> p.cached[k] < |p.key| && p.key[p.cached[k]] == Some(k))
    && (forall b :: 0 <= b < |p.key| && p.key[b].Some? ==>
          p.key[b].value in p.cached && p.cached[p.key[b].value] == b)
  }

  /** Reference counts equal the occurrences in `held`; the free queue holds each unreferenced block once. */
  ghost predicate Valid(p: Pool, held: multiset<nat>) {
    && Shape(p)
    && (forall b :: b in held ==> b < |p.ref|)
    && (forall b :: 0 <= b < |p.ref| ==> p.ref[b] == held[b])
    && Distinct(p.free)
    && (forall b :: 0 <= b < |p.ref| ==> (b in p.free <==> p.ref[b] == 0))
    && CacheInverse(p)
  }

  /** No count is negative and every unreferenced block is queued. */
  ghost predicate Counted(p: Pool) {
    && (forall b :: 0 <= b < |p.ref| ==> p.ref[b] >= 0)
    && (forall b :: 0 <= b < |p.ref| && p.ref[b] == 0 ==> b in p.free)
  }

  /** A block without a cache key belongs to at most one table entry. */
  ghost predicate Unshared(p: Pool)
    requires Shape(p)
  {
    forall b :: 0 <= b < |p.ref| && p.key[b].None? ==> p.ref[b] <= 1
  }

  function Fresh(n: nat): (p: Pool)
    ensures Shape(p) && Valid(p, multiset{}) && Unshared(p) && |p.ref| == n && p.cached == map[]
  {
    var p := Pool(seq(n, i requires 0 <= i < n => i), seq(n, _ => None), seq(n, _ => 0), map[]);
    assert forall b :: 0 <= b < n ==> b in p.free by {
      forall b | 0 <= b < n ensures b in p.free { assert p.free[b] == b; }
    }
    p
  }

  /** `_pop_free`: take the least recently freed block, forgetting what it caches. */
  function PopFree(p: Pool): (Pool, nat)
    requires Shape(p) && p.free != []
  {
    var b := p.free[0];
    var q := p.(free := p.free[1..]);
    if p.key[b].None? then (q, b)
    else (q.(cached := p.cached - {p.key[b].value}, key := p.key[b := None]), b)
  }

  /** One round of the allocation loop of `_grow`: the oldest free block, with one reference. */
  function TakeOne(p: Pool): (q: Pool)
    requires Shape(p) && p.free != []
    ensures Shape(q) && |q.free| == |p.free| - 1
  {
    var (q, b) := PopFree(p);
    q.(ref := q.ref[b := 1])
  }

  /** The allocation loop of `_grow`: `n` blocks, each with one reference. */
  function Take(p: Pool, n: nat): (r: (Pool, seq<nat>))
    requires Shape(p) && n <= |p.free|
    ensures Shape(r.0)
    decreases n
  {
    if n == 0 then (p, []) else
      var (q, bs) := Take(TakeOne(p), n - 1);
      (q, [p.free[0]] + bs)
  }

  /** One step of `_release`. */
  function Unref(p: Pool, b: nat): (q: Pool)
    requires Shape(p) && b < |p.ref|
    ensures Shape(q)
  {
    var q := p.(ref := p.ref[b := p.ref[b] - 1]);
    if q.ref[b] == 0 then q.(free := q.free + [b]) else q
  }

  /** `_release`: drop one reference per table entry, last entry first. */
  function Release(p: Pool, table: seq<nat>): (q: Pool)
    requires Shape(p) && Below(table, |p.ref|)
    ensures Shape(q)
    decreases |table|
  {
    if table == [] then p else
      var b := table[|table| - 1];
      Release(Unref(p, b), table[..|table| - 1])
  }

  /** One step of taking over a cached block at admission. */
  function Adopt1(p: Pool, b: nat): (q: Pool)
    requires Shape(p) && b < |p.ref|
    requires Counted(p)
    ensures Shape(q) && |q.ref| == |p.ref| && Counted(q)
  {
    assert p.ref[b] == 0 ==> b in p.free;
    var q := p.(ref := p.ref[b := p.ref[b] + 1]);
    assert p.ref[b] == 0 ==> forall c :: c in p.free && c != b ==> c in RemoveAt(p.free, IndexOf(p.free, b)) by {
      if p.ref[b] == 0 { RemoveAtKeeps(p.free, IndexOf(p.free, b)); }
    }
    if p.ref[b] == 0 then q.(free := RemoveAt(p.free, IndexOf(p.free, b))) else q
  }

  /** Number of entries of `bs` that are unreferenced, duplicates counted (`evictable`). */
  function Evictable(p: Pool, bs: seq<nat>): (n: nat)
    requires Below(bs, |p.ref|)
    ensures n <= |bs|
  {
    if bs == [] then 0 else
      (if p.ref[bs[0]] == 0 then 1 else 0) + Evictable(p, bs[1..])
  }

  /** `hit_blocks`: length of the leading run of cached keys. */
  function HitBlocks(cached: map<Key, nat>, keys: seq<Key>): (n: nat)
    ensures n <= |keys|
    ensures forall i :: 0 <= i < n ==> keys[i] in cached
    ensures n < |keys| ==> keys[n] !in cached
  {
    if keys == [] || keys[0] !in cached then 0 else 1 + HitBlocks(cached, keys[1..])
  }

  // ---------------------------------------------------------------------------------------
  // Ownership is kept by every operation

  lemma TakeOneValid(p: Pool, held: multiset<nat>)
    requires Valid(p, held) && Unshared(p) && p.free != []
    ensures var q, b := TakeOne(p), p.free[0];
            && b !in held && q.free == p.free[1..] && b !in q.free
            && q.key == p.key[b := None] && |q.ref| == |p.ref| && q.cached.Keys <= p.cached.Keys
            && Valid(q, held + multiset{b}) && Unshared(q)
  {
    var q, b := TakeOne(p), p.free[0];
    assert b in p.free;
    assert p.ref[b] == 0 && held[b] == 0;
    assert p.free == [b] + q.free;
    assert Distinct(q.free) && b !in q.free;
    assert q.key == p.key[b := None];
    assert CacheInverse(q);
    forall c | 0 <= c < |q.ref| ensures c in q.free <==> q.ref[c] == 0 {
      assert c in p.free <==> c == b || c in q.free;
    }
  }

  lemma ValidShape(p: Pool, held: multiset<nat>)
    requires Valid(p, held)
    ensures Shape(p)
  {}

  lemma {:induction false} TakeOwned(p: Pool, held: multiset<nat>, n: nat)
    requires Valid(p, held) && Unshared(p) && n <= |p.free|
    ensures var (q, bs) := Take(p, n);
            Valid(q, held + multiset(bs)) && Unshared(q)
    decreases n
  {
    hide Valid, Unshared, TakeOne;
    if n == 0 {
      assert held + multiset{} == held;
    } else {
      ValidShape(p, held);
      TakeOneValid(p, held);
      var q1, b := TakeOne(p), p.free[0];
      TakeOwned(q1, held + multiset{b}, n - 1);
      var (q, bs) := Take(q1, n - 1);
      assert held + multiset([b] + bs) == (held + multiset{b}) + multiset(bs);
    }
  }

  lemma {:induction false} TakeKeys(p: Pool, n: nat)
    requires Shape(p) && Distinct(p.free) && n <= |p.free|
    ensures var (q, bs) := Take(p, n);
            && bs == p.free[..n] && q.free == p.free[n..] && |q.ref| == |p.ref| && q.cached.Keys <= p.cached.Keys
            && (forall b :: 0 <= b < |p.key| ==> q.key[b] == if b in bs then None else p.key[b])
    decreases n
  {
    if n > 0 {
      hide TakeOne, Shape, Distinct;
      var q1, b := TakeOne(p), p.free[0];
      TakeOneKeys(p);
      TailDistinct(p.free);
      TakeKeys(q1, n - 1);
      var (q, bs) := Take(q1, n - 1);
      assert p.free[..n] == [b] + p.free[1..][..n - 1];
      assert p.free[n..] == p.free[1..][n - 1..];
    }
  }

  lemma TailDistinct<T>(s: seq<T>)
    requires Distinct(s) && s != []
    ensures Distinct(s[1..])
  {
    assert forall k :: 0 <= k < |s[1..]| ==> s[1..][k] == s[k + 1];
  }

  lemma TakeOneKeys(p: Pool)
    requires Shape(p) && p.free != []
    ensures var q, b := TakeOne(p), p.free[0];
            && q.free == p.free[1..] && b < |p.key| && q.key == p.key[b := None] && |q.ref| == |p.ref|
            && q.cached.Keys <= p.cached.Keys
  {
  }

  /** Allocation hands out the oldest free blocks, owned by nobody before, and clears what they cached. */
  lemma TakeValid(p: Pool, held: multiset<nat>, n: nat)
    requires Valid(p, held) && Unshared(p) && n <= |p.free|
    ensures var (q, bs) := Take(p, n);
            && bs == p.free[..n] && q.free == p.free[n..]
            && Valid(q, held + multiset(bs)) && Unshared(q) && |q.ref| == |p.ref|
            && (forall i :: 0 <= i < |bs| ==> bs[i] !in held)
            && (forall b :: 0 <= b < |p.key| ==> q.key[b] == if b in bs then None else p.key[b])
            && q.cached.Keys <= p.cached.Keys
  {
    TakeOwned(p, held, n);
    TakeKeys(p, n);
    forall i | 0 <= i < n ensures p.free[i] !in held {
      assert p.free[i] in p.free;
    }
  }

  lemma UnrefValid(p: Pool, held: multiset<nat>, b: nat)
    requires Valid(p, held) && Unshared(p) && b in held
    ensures var q := Unref(p, b);
            && Valid(q, held - multiset{b}) && Unshared(q) && p.free <= q.free
            && q.key == p.key && q.cached == p.cached && |q.ref| == |p.ref|
  {
    assert p.ref[b] > 0 && b !in p.free;
  }

  /** Releasing a table gives back exactly its references; newly free blocks join the back of the queue. */
  lemma {:induction false} ReleaseValid(p: Pool, held: multiset<nat>, table: seq<nat>)
    requires Valid(p, held) && Unshared(p) && multiset(table) <= held
    ensures Below(table, |p.ref|)
    ensures var q := Release(p, table);
            && Valid(q, held - multiset(table)) && Unshared(q) && p.free <= q.free
            && q.key == p.key && q.cached == p.cached && |q.ref| == |p.ref|
    decreases |table|
  {
    forall i | 0 <= i < |table| ensures table[i] < |p.ref| {
      assert table[i] in multiset(table);
    }
    if table != [] {
      var t, b := table[..|table| - 1], table[|table| - 1];
      assert table == t + [b];
      assert multiset(table) == multiset(t) + multiset{b};
      assert b in multiset(table);
      UnrefValid(p, held, b);
      ReleaseValid(Unref(p, b), held - multiset{b}, t);
      assert held - multiset{b} - multiset(t) == held - multiset(table);
    } else {
      assert held - multiset(table) == held;
    }
  }

  /** Where a table first names a block does not depend on the entries after that. */
  lemma {:induction false} IndexOfPrefix(t: seq<nat>, b: nat, x: nat)
    requires x in t || x == b
    ensures IndexOf(t + [b], x) == if x in t then IndexOf(t, x) else |t|
  {
    var i := IndexOf(t + [b], x);
    assert forall j :: 0 <= j < |t| ==> (t + [b])[j] == t[j];
    assert forall j :: 0 <= j < i ==> (t + [b])[j] != x by {
      forall j | 0 <= j < i ensures (t + [b])[j] != x { assert (t + [b])[j] in (t + [b])[..i]; }
    }
    if x in t {
      var k := IndexOf(t, x);
      assert forall j :: 0 <= j < k ==> t[j] != x by {
        forall j | 0 <= j < k ensures t[j] != x { assert t[j] in t[..k]; }
      }
    }
  }

  /**
   `_release` queues the blocks nobody references any more behind the free ones, the last block of the table
   first: of a prefix the tail is the first to be allocated again.
   */
  lemma {:induction false} ReleaseOrder(p: Pool, held: multiset<nat>, table: seq<nat>)
    requires Valid(p, held) && Unshared(p) && multiset(table) <= held
    ensures Below(table, |p.ref|)
    ensures var q := Release(p, table);
            && p.free <= q.free && |q.ref| == |p.ref|
            && FromTheBack(q.free[|p.free|..], table)
            && (forall b :: b in q.free[|p.free|..] <==> b in table && q.ref[b] == 0)
    decreases |table|
  {
    ReleaseValid(p, held, table);
    if table == [] {
      assert Release(p, table).free[|p.free|..] == [];
    } else {
      var t, b := table[..|table| - 1], table[|table| - 1];
      assert table == t + [b];
      assert multiset(table) == multiset(t) + multiset{b};
      assert b in multiset(table);
      UnrefValid(p, held, b);
      var p1 := Unref(p, b);
      hide Valid, Unshared, Unref, FromTheBack, Shape;
      ReleaseOrder(p1, held - multiset{b}, t);
      ReleaseValid(p1, held - multiset{b}, t);
      var q := Release(p1, t);
      ReleaseFreed(p, p1, q, held, t, b);
      BackJoin(q.free[|p1.free|..], t, b);
    }
  }

  lemma BackJoin(rest: seq<nat>, t: seq<nat>, b: nat)
    requires FromTheBack(rest, t)
    ensures FromTheBack(rest, t + [b])
    ensures b !in t ==> FromTheBack([b] + rest, t + [b]) && b !in rest
  {
    forall x | x in t || x == b ensures x in t + [b] && IndexOf(t + [b], x) == if x in t then IndexOf(t, x) else |t| {
      IndexOfPrefix(t, b, x);
    }
  }

  lemma ReleaseFreed(p: Pool, p1: Pool, q: Pool, held: multiset<nat>, t: seq<nat>, b: nat)
    requires Valid(p, held) && b < |p.ref| && b in held && multiset(t) + multiset{b} <= held
    requires p1 == Unref(p, b) && p.free <= p1.free <= q.free && |q.ref| == |p.ref|
    requires Valid(q, held - multiset{b} - multiset(t))
    requires Below(t, |q.ref|) && forall x :: x in q.free[|p1.free|..] <==> x in t && q.ref[x] == 0
    ensures b in t ==> q.free[|p.free|..] == q.free[|p1.free|..]
    ensures b !in t ==> q.free[|p.free|..] == (if q.ref[b] == 0 then [b] else []) + q.free[|p1.free|..]
  {
    assert b in t ==> multiset(t)[b] >= 1;
    assert b !in t ==> multiset(t)[b] == 0;
    assert p1.ref[b] == held[b] - 1;
    if p1.ref[b] == 0 {
      assert p1.free == p.free + [b];
      assert q.free[|p.free|..] == [b] + q.free[|p1.free|..];
    } else {
      assert p1.free == p.free;
    }
  }

  lemma Adopt1Valid(p: Pool, held: multiset<nat>, b: nat)
    requires Valid(p, held) && Unshared(p) && Counted(p) && b < |p.ref| && p.key[b].Some?
    ensures var q := Adopt1(p, b);
            && Valid(q, held + multiset{b}) && Unshared(q)
            && q.key == p.key && q.cached == p.cached && q.ref == p.ref[b := p.ref[b] + 1]
            && |q.free| == |p.free| - (if p.ref[b] == 0 then 1 else 0)
  {
    if p.ref[b] == 0 {
      RemoveAtDistinct(p.free, IndexOf(p.free, b));
    }
  }

  /** Taking over a run of cached blocks, front to back. */
  function Adopt(p: Pool, bs: seq<nat>): (q: Pool)
    requires Shape(p) && Below(bs, |p.ref|)
    requires Counted(p)
    ensures Shape(q)
    decreases |bs|
  {
    if bs == [] then p else
      var q := Adopt1(p, bs[0]);
      Adopt(q, bs[1..])
  }

  lemma {:induction false} EvictableDrops(p: Pool, q: Pool, bs: seq<nat>)
    requires |p.ref| == |q.ref| && Below(bs, |p.ref|)
    requires forall b :: 0 <= b < |p.ref| ==> 0 <= p.ref[b] <= q.ref[b]
    ensures Evictable(q, bs) <= Evictable(p, bs)
  {
    if bs != [] {
      EvictableDrops(p, q, bs[1..]);
    }
  }

  /** Adopting cached blocks adds one reference each and uses at most `Evictable` free slots. */
  lemma {:induction false} AdoptValid(p: Pool, held: multiset<nat>, bs: seq<nat>)
    requires Valid(p, held) && Unshared(p) && Shape(p) && Counted(p)
    requires Below(bs, |p.ref|) && forall i :: 0 <= i < |bs| ==> p.key[bs[i]].Some?
    ensures var q := Adopt(p, bs);
            && Valid(q, held + multiset(bs)) && Unshared(q)
            && q.key == p.key && q.cached == p.cached && |q.ref| == |p.ref|
            && |q.free| + Evictable(p, bs) >= |p.free|
    decreases |bs|
  {
    hide Valid, Unshared, Adopt1, RemoveAt, IndexOf;
    if bs != [] {
      Adopt1Valid(p, held, bs[0]);
      var q := Adopt1(p, bs[0]);
      AdoptValid(q, held + multiset{bs[0]}, bs[1..]);
      EvictableDrops(p, q, bs[1..]);
      assert bs == [bs[0]] + bs[1..];
      assert held + multiset(bs) == held + multiset{bs[0]} + multiset(bs[1..]);
    } else {
      assert held + multiset(bs) == held;
    }
  }

  /** The block numbers below `n`. */
  ghost function BlocksBelow(n: nat): (r: set<nat>)
    ensures |r| == n && forall b: nat :: b in r <==> b < n
  {
    if n == 0 then {} else BlocksBelow(n - 1) + {n - 1}
  }

  /** When only `table` is held, at least N - |table| blocks are free: a lone request meets no shortage. */
  lemma FreeWhenAlone(p: Pool, table: seq<nat>)
    requires Valid(p, multiset(table))
    ensures |p.free| + |table| >= |p.ref|
  {
    var all := BlocksBelow(|p.ref|);
    var used, free := Elements(table), Elements(p.free);
    ElementsLength(table);
    ElementsLength(p.free);
    forall b | b in all ensures b in used + free {
      if b !in p.free { assert multiset(table)[b] > 0; }
    }
    SubsetCard(all, used + free);
  }

  lemma {:induction false} SubsetCard(a: set<nat>, b: set<nat>)
    requires a <= b
    ensures |a| <= |b|
  {
    if a != {} {
      var x :| x in a;
      SubsetCard(a - {x}, b - {x});
    }
  }
}
