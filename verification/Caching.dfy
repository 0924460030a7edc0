/**
 What the prefix cache holds: the full blocks of everything computed, until their block is allocated again, and
 therefore what a later request with the same leading keys finds.
 */
module Caching {
  import opened Common
  import opened BlockPool
  import opened Scheduling
  import opened ScheduleSteps
  import opened ScheduleLoops
  import opened ScheduleTheorems
  import opened FinishSteps
  import opened FinishLoops
  import opened ProgressBound
  import opened IdealHit
  import opened WorkConserving

  // ---------------------------------------------------------------------------------------
  // Serving a chunk caches its blocks

  /** Every entry of `a` is in `b`, at the same block. */
  ghost predicate Extends(a: map<Key, nat>, b: map<Key, nat>) {
    forall k :: k in a ==> k in b && b[k] == a[k]
  }

  ghost predicate CachedUpTo(trace: seq<Request>, cached: map<Key, nat>, r: nat, lo: nat, hi: nat)
    requires r < |trace|
  {
    forall i :: lo <= i < hi ==> KeyOf(trace, r, i) in cached
  }

  /** What `b` has and `a` has not are keys of the first `n` blocks of `r`, at the blocks of its table. */
  ghost predicate OnlyOwn(trace: seq<Request>, a: map<Key, nat>, b: map<Key, nat>, r: nat, table: seq<nat>, n: nat)
    requires r < |trace|
  {
    forall k :: k in b && k !in a ==> exists i :: 0 <= i < n && i < |table| && k == KeyOf(trace, r, i) && b[k] == table[i]
  }

  lemma CacheOneHolds(trace: seq<Request>, s: EngineState, pool: Pool, n: nat, i: nat, k: nat)
    requires Defined(trace, s) && CacheReady(trace, s, pool, n, i) && k < n && k < |s.prog[s.running[i]].table|
    ensures var x := s.running[i];
            var q := CacheOne(trace, pool, x, s.prog[x].table, k);
            && KeyOf(trace, x, k) in q.cached && Extends(pool.cached, q.cached)
            && OnlyOwn(trace, pool.cached, q.cached, x, s.prog[x].table, n)
  {
    hide Held;
  }

  lemma OnlyOwnTrans(trace: seq<Request>, a: map<Key, nat>, b: map<Key, nat>, c: map<Key, nat>, r: nat, table: seq<nat>, n: nat)
    requires r < |trace| && OnlyOwn(trace, a, b, r, table, n) && OnlyOwn(trace, b, c, r, table, n)
    requires Extends(a, b) && Extends(b, c)
    ensures OnlyOwn(trace, a, c, r, table, n) && Extends(a, c)
  {
  }

  lemma {:induction false} CacheFullHolds(trace: seq<Request>, s: EngineState, pool: Pool, i: nat, k: nat, n: nat)
    requires Defined(trace, s) && Distinct(s.running) && CacheReady(trace, s, pool, n, i)
    requires n <= |s.prog[s.running[i]].table|
    ensures var x := s.running[i];
            var q := CacheFull(trace, pool, x, s.prog[x].table, k, n);
            && CachedUpTo(trace, q.cached, x, k, n) && Extends(pool.cached, q.cached)
            && OnlyOwn(trace, pool.cached, q.cached, x, s.prog[x].table, n)
    decreases n - k
  {
    hide Valid, Unshared, Held, KeysFit, CacheOne, Distinct, OnlyOwn;
    if k < n {
      var x := s.running[i];
      var one := CacheOne(trace, pool, x, s.prog[x].table, k);
      CacheOneReady(trace, s, pool, n, i, k);
      CacheOneHolds(trace, s, pool, n, i, k);
      hide CacheReady;
      CacheFullHolds(trace, s, one, i, k + 1, n);
      OnlyOwnTrans(trace, pool.cached, one.cached, CacheFull(trace, one, x, s.prog[x].table, k + 1, n).cached, x, s.prog[x].table, n);
    } else {
      assert OnlyOwn(trace, pool.cached, pool.cached, s.running[i], s.prog[s.running[i]].table, n) by {
        OnlyOwnRefl(trace, pool.cached, s.running[i], s.prog[s.running[i]].table, n);
      }
    }
  }

  lemma OnlyOwnRefl(trace: seq<Request>, a: map<Key, nat>, r: nat, table: seq<nat>, n: nat)
    requires r < |trace|
    ensures OnlyOwn(trace, a, a, r, table, n)
  {
  }

  lemma BookCaches(trace: seq<Request>, cfg: Config, s: EngineState, off: nat, c: Chunk)
    requires Defined(trace, s) && Owned(trace, cfg, s) && OwnKeys(trace, s) && Distinct(s.running)
    requires off < |s.running| && c.rid == s.running[off]
    requires (s.prog[c.rid].computed + c.tokens) / BLOCK <= |s.prog[c.rid].table|
    ensures var q, p, n := Book(trace, s, c).pool.cached, s.prog[c.rid], (s.prog[c.rid].computed + c.tokens) / BLOCK;
            && CachedUpTo(trace, q, c.rid, 0, n) && Extends(s.pool.cached, q)
            && OnlyOwn(trace, s.pool.cached, q, c.rid, p.table, n)
  {
    hide Valid, Unshared, CacheFull, KeysFit, Book, Below, CacheReady, OnlyOwn, CachedUpTo, Extends;
    var n := (s.prog[c.rid].computed + c.tokens) / BLOCK;
    BookReady(trace, cfg, s, off, n);
    BookEffect(trace, s, c);
    CacheFullHolds(trace, s, s.pool, off, 0, n);
  }

  /**
   After a chunk has been served, every full block its request has computed is cached under the request's key,
   whether the request stays or leaves; nothing that was cached is lost, and nothing else is added.
   */
  lemma ServedCaches(trace: seq<Request>, cfg: Config, s: EngineState, off: nat, plan: seq<Chunk>, now: int)
    requires Pending(trace, cfg, s, off, plan)
    ensures plan[0].rid in s.prog && plan[0].rid < |trace|
    ensures var c, p, q := plan[0], s.prog[plan[0].rid], Served(trace, cfg, s, off, plan, now).s.pool.cached;
            && CachedUpTo(trace, q, c.rid, 0, (p.computed + c.tokens) / BLOCK) && Extends(s.pool.cached, q)
            && OnlyOwn(trace, s.pool.cached, q, c.rid, p.table, (p.computed + c.tokens) / BLOCK)
  {
    PendingChunk(trace, cfg, s, off, plan);
    PendingParts(trace, cfg, s, off, plan);
    hide Inv, Owned, OwnKeys, Distinct, Book, FinishOne, OnlyOwn, CachedUpTo, Extends, Pending, Shape, Below;
    BookCaches(trace, cfg, s, off, plan[0]);
    FinishOneCached(trace, s, plan[0], now);
  }

  /** The full blocks of chunk `c`'s request, once the chunk is computed. */
  ghost predicate ChunkCached(trace: seq<Request>, prog: map<nat, Progress>, c: Chunk, cached: map<Key, nat>) {
    && c.rid < |trace| && c.rid in prog
    && CachedUpTo(trace, cached, c.rid, 0, (prog[c.rid].computed + c.tokens) / BLOCK)
  }

  /** The key belongs to a full block computed by a chunk of the plan. */
  ghost predicate FromPlan(trace: seq<Request>, prog: map<nat, Progress>, plan: seq<Chunk>, k: Key) {
    exists j, i :: 0 <= j < |plan| && plan[j].rid < |trace| && plan[j].rid in prog
      && 0 <= i < (prog[plan[j].rid].computed + plan[j].tokens) / BLOCK && k == KeyOf(trace, plan[j].rid, i)
  }

  /** The chunks after the first are for other requests, whose records the first leaves alone. */
  lemma LaterChunks(trace: seq<Request>, cfg: Config, s: EngineState, off: nat, plan: seq<Chunk>, now: int)
    requires Pending(trace, cfg, s, off, plan)
    ensures forall j :: 1 <= j < |plan| ==>
              && plan[j].rid in s.prog && plan[j].rid in Served(trace, cfg, s, off, plan, now).s.prog
              && Served(trace, cfg, s, off, plan, now).s.prog[plan[j].rid] == s.prog[plan[j].rid]
  {
    ServedStep(trace, cfg, s, off, plan, now);
    PlanRids(trace, cfg, s, off, plan);
    hide Inv, Served, Completes, Leaves;
  }

  lemma PlanRids(trace: seq<Request>, cfg: Config, s: EngineState, off: nat, plan: seq<Chunk>)
    requires Pending(trace, cfg, s, off, plan)
    ensures forall j :: 1 <= j < |plan| ==> plan[j].rid in s.prog && plan[j].rid != plan[0].rid
  {
    QueuesApart(s);
    hide Owned, OwnKeys, Records, CeilBlocks;
    forall j | 1 <= j < |plan| ensures plan[j].rid in s.prog && plan[j].rid != plan[0].rid {
      assert plan[j].rid == s.running[off + j] && plan[0].rid == s.running[off];
    }
  }

  /**
   finish_step: at its end every full block computed by any chunk of the plan is cached, everything cached
   before still is, at the same block, and every new key is one of those.
   */
  lemma {:induction false} FinishCaches(trace: seq<Request>, cfg: Config, s: EngineState, off: nat, plan: seq<Chunk>, now: int)
    requires Usable(trace, cfg) && Inv(trace, cfg, s, off, plan)
    ensures var q := FinishLoop(trace, cfg, s, off, plan, now).s.pool.cached;
            && Extends(s.pool.cached, q)
            && (forall j :: 0 <= j < |plan| ==> ChunkCached(trace, s.prog, plan[j], q))
            && (forall k :: k in q ==> k in s.pool.cached || FromPlan(trace, s.prog, plan, k))
    decreases |plan|
  {
    if plan == [] {
      assert Extends(s.pool.cached, s.pool.cached);
    } else {
      assert Pending(trace, cfg, s, off, plan);
      FinishLoopStep(trace, cfg, s, off, plan, now);
      ServedCaches(trace, cfg, s, off, plan, now);
      LaterChunks(trace, cfg, s, off, plan, now);
      hide Inv, Served, Usable, FinishLoop, NextOff, Pending;
      var t, next := Served(trace, cfg, s, off, plan, now).s, NextOff(trace, cfg, s, off, plan);
      FinishCaches(trace, cfg, t, next, plan[1..], now);
      FinishJoin(trace, s, t.pool.cached, t.prog, plan, FinishLoop(trace, cfg, t, next, plan[1..], now).s.pool.cached);
    }
  }

  lemma FinishJoin(trace: seq<Request>, s: EngineState, mid: map<Key, nat>, prog: map<nat, Progress>,
                   plan: seq<Chunk>, q: map<Key, nat>)
    requires plan != [] && plan[0].rid in s.prog && plan[0].rid < |trace|
    requires forall j :: 1 <= j < |plan| ==>
               plan[j].rid in s.prog && plan[j].rid in prog && prog[plan[j].rid] == s.prog[plan[j].rid]
    requires var c, p := plan[0], s.prog[plan[0].rid];
             && CachedUpTo(trace, mid, c.rid, 0, (p.computed + c.tokens) / BLOCK) && Extends(s.pool.cached, mid)
             && OnlyOwn(trace, s.pool.cached, mid, c.rid, p.table, (p.computed + c.tokens) / BLOCK)
    requires Extends(mid, q) && (forall j :: 0 <= j < |plan[1..]| ==> ChunkCached(trace, prog, plan[1..][j], q))
    requires forall k :: k in q ==> k in mid || FromPlan(trace, prog, plan[1..], k)
    ensures Extends(s.pool.cached, q)
    ensures forall j :: 0 <= j < |plan| ==> ChunkCached(trace, s.prog, plan[j], q)
    ensures forall k :: k in q ==> k in s.pool.cached || FromPlan(trace, s.prog, plan, k)
  {
    forall j | 0 <= j < |plan| ensures ChunkCached(trace, s.prog, plan[j], q) {
      if j > 0 { assert ChunkCached(trace, prog, plan[1..][j - 1], q); }
    }
    forall k | k in q && k !in s.pool.cached ensures FromPlan(trace, s.prog, plan, k) {
      if k in mid {
        var i :| 0 <= i < (s.prog[plan[0].rid].computed + plan[0].tokens) / BLOCK && k == KeyOf(trace, plan[0].rid, i);
        assert FromPlan(trace, s.prog, plan, k);
      } else {
        var j, i :| 0 <= j < |plan[1..]| && plan[1..][j].rid < |trace| && plan[1..][j].rid in prog
          && 0 <= i < (prog[plan[1..][j].rid].computed + plan[1..][j].tokens) / BLOCK && k == KeyOf(trace, plan[1..][j].rid, i);
        assert plan[j + 1] == plan[1..][j];
        assert FromPlan(trace, s.prog, plan, k);
      }
    }
  }

  // ---------------------------------------------------------------------------------------
  // Only the allocation of its own block takes a key out of the cache

  /** `_pop_free` loses the key of the block it takes and no other. */
  lemma TakeOneLoses(p: Pool)
    requires Shape(p) && p.free != [] && CacheInverse(p)
    ensures CacheInverse(TakeOne(p)) && |TakeOne(p).key| == |p.key|
    ensures forall k :: k in TakeOne(p).cached <==> k in p.cached && p.cached[k] != p.free[0]
    ensures forall k :: k in TakeOne(p).cached ==> TakeOne(p).cached[k] == p.cached[k]
  {
  }

  /** An allocation loses exactly the keys of the blocks it hands out. */
  lemma {:induction false} TakeLoses(p: Pool, n: nat)
    requires Shape(p) && CacheInverse(p) && Distinct(p.free) && n <= |p.free|
    ensures var (q, bs) := Take(p, n);
            && (forall k :: k in q.cached <==> k in p.cached && p.cached[k] !in bs)
            && (forall k :: k in q.cached ==> q.cached[k] == p.cached[k])
    decreases n
  {
    hide TakeOne, Shape, CacheInverse, Distinct;
    if n > 0 {
      TakeOneLoses(p);
      TakeOneKeys(p);
      TailDistinct(p.free);
      TakeLoses(TakeOne(p), n - 1);
    }
  }

  /** Block `b` belongs to a planned request and carries no key. */
  ghost predicate HandedOut(t: Run, b: nat) {
    exists j :: 0 <= j < |t.plan| && Holds(t.s, t.plan[j].rid, b)
  }

  ghost predicate Holds(s: EngineState, x: nat, b: nat) {
    x in s.prog && b in s.prog[x].table && b < |s.pool.key| && s.pool.key[b] == None
  }

  /**
   From `r` to `t` nothing enters the cache, and a key leaves it only because its block has been handed out to
   a request of the plan; planned requests keep their tables and blocks without a key get none.
   */
  ghost predicate Hands(r: Run, t: Run) {
    && r.plan <= t.plan && |r.s.pool.key| == |t.s.pool.key|
    && (forall j :: 0 <= j < |r.plan| ==>
          var x := r.plan[j].rid; x in r.s.prog && x in t.s.prog && t.s.prog[x].table == r.s.prog[x].table)
    && (forall b :: 0 <= b < |r.s.pool.key| && r.s.pool.key[b] == None ==> t.s.pool.key[b] == None)
    && Extends(t.s.pool.cached, r.s.pool.cached)
    && (forall k :: k in r.s.pool.cached && k !in t.s.pool.cached ==> HandedOut(t, r.s.pool.cached[k]))
  }

  lemma HandedLater(t: Run, u: Run, b: nat)
    requires Hands(t, u) && HandedOut(t, b)
    ensures HandedOut(u, b)
  {
    hide Extends;
    var j :| 0 <= j < |t.plan| && Holds(t.s, t.plan[j].rid, b);
    assert u.plan[j] == t.plan[j];
    assert Holds(u.s, u.plan[j].rid, b);
  }

  lemma HandsTrans(r: Run, t: Run, u: Run)
    requires Hands(r, t) && Hands(t, u)
    ensures Hands(r, u)
  {
    forall k | k in r.s.pool.cached && k !in u.s.pool.cached ensures HandedOut(u, r.s.pool.cached[k]) {
      if k in t.s.pool.cached {
        assert t.s.pool.cached[k] == r.s.pool.cached[k];
      } else {
        hide Hands;
        HandedLater(t, u, r.s.pool.cached[k]);
      }
    }
    hide HandedOut;
    forall j | 0 <= j < |r.plan|
      ensures var x := r.plan[j].rid; x in r.s.prog && x in u.s.prog && u.s.prog[x].table == r.s.prog[x].table
    {
      assert t.plan[j] == r.plan[j];
    }
  }

  lemma HandsRefl(trace: seq<Request>, cfg: Config, r: Run)
    requires Planning(trace, cfg, r)
    ensures Hands(r, r)
  {
    PlanPositions(trace, cfg, r);
  }

  /** Growing a request's table by allocated blocks. */
  lemma GrowHands(trace: seq<Request>, s: EngineState, i: nat, tokens: nat)
    requires Defined(trace, s) && CacheInverse(s.pool) && Distinct(s.pool.free) && i < |s.running|
    requires Need(s, s.running[i], s.prog[s.running[i]].computed + tokens) <= |s.pool.free|
    ensures var t, x := GrowNext(trace, s, i, tokens), s.running[i];
            && |t.pool.key| == |s.pool.key| && x in t.prog
            && (forall y :: y in s.prog && y != x ==> y in t.prog && t.prog[y] == s.prog[y])
            && (forall b :: 0 <= b < |s.pool.key| && s.pool.key[b] == None ==> t.pool.key[b] == None)
            && Extends(t.pool.cached, s.pool.cached)
            && (forall k :: k in s.pool.cached && k !in t.pool.cached ==> Holds(t, x, s.pool.cached[k]))
  {
    var x := s.running[i];
    var n := Max(0, Need(s, x, s.prog[x].computed + tokens));
    TakeLoses(s.pool, n);
    TakeKeys(s.pool, n);
    hide Take, Distinct;
  }

  lemma PoolParts(trace: seq<Request>, cfg: Config, s: EngineState, plan: seq<Chunk>)
    requires Inv(trace, cfg, s, 0, plan)
    ensures Defined(trace, s) && CacheInverse(s.pool) && Distinct(s.pool.free) && Apart(s)
  {
    QueuesApart(s);
    hide OwnKeys, Records, Plans, Held, Unshared;
  }

  lemma PlanNextHands(trace: seq<Request>, cfg: Config, r: Run)
    requires Planning(trace, cfg, r) && Unplanned(r) && NextFits(trace, cfg, r)
    ensures Hands(r, PlanNext(trace, cfg, r))
  {
    PoolParts(trace, cfg, r.s, r.plan);
    PlanPositions(trace, cfg, r);
    hide Inv, Planning, AllComplete, Defined, Extends, Distinct, Order, Holds, NextTokens, CacheInverse;
    var i, t := |r.plan|, PlanNext(trace, cfg, r);
    GrowHands(trace, r.s, i, NextTokens(trace, cfg, r));
    hide GrowNext;
    HandedNext(r, t, r.s.running[i]);
    DistinctParts(r.s);
  }

  /** What the last chunk's request holds has been handed out. */
  lemma HandedNext(r: Run, t: Run, x: nat)
    requires |t.plan| == |r.plan| + 1 && t.plan[|r.plan|].rid == x
    ensures forall b :: Holds(t.s, x, b) ==> HandedOut(t, b)
  {
  }

  lemma DistinctParts(s: EngineState)
    requires Apart(s)
    ensures forall i, j :: 0 <= i < j < |s.running| ==> s.running[i] != s.running[j]
  {
  }

  lemma EvictHands(trace: seq<Request>, cfg: Config, r: Run)
    requires Planning(trace, cfg, r) && |r.plan| < |r.s.running|
    ensures Hands(r, Evict(trace, cfg, r))
  {
    PoolParts(trace, cfg, r.s, r.plan);
    PlanPositions(trace, cfg, r);
    EvictOutputs(trace, cfg, r);
    PreemptKeys(trace, cfg, r.s, r.plan);
    EvictCached(trace, cfg, r);
    var t := Evict(trace, cfg, r);
    assert t.s.pool.key == r.s.pool.key by { hide Inv, AllComplete, PreemptTail; }
    assert Extends(t.s.pool.cached, r.s.pool.cached);
    DistinctParts(r.s);
    hide Inv, Planning, AllComplete, Defined, Distinct, Order, Holds, Evict, CacheInverse, SameOutputs, Apart;
  }

  lemma PreemptKeys(trace: seq<Request>, cfg: Config, s: EngineState, plan: seq<Chunk>)
    requires Inv(trace, cfg, s, 0, plan) && |plan| < |s.running|
    ensures PreemptTail(trace, s).pool.key == s.pool.key
  {
    PoolParts(trace, cfg, s, plan);
    hide Records, Plans, OwnKeys, PreemptTail, Held;
    PreemptOwned(trace, cfg, s);
  }

  lemma {:induction false} RunLoopHands(trace: seq<Request>, cfg: Config, r: Run)
    requires Planning(trace, cfg, r)
    ensures Hands(r, RunLoop(trace, cfg, r))
    decreases |r.s.running| - |r.plan|
  {
    RunLoopSteps(trace, cfg, r);
    hide Planning, NextFits, PlanNext, Evict, Order, NextTokens, RunLoop, Hands;
    if !Unplanned(r) {
      HandsRefl(trace, cfg, r);
    } else if NextFits(trace, cfg, r) {
      var t := PlanNext(trace, cfg, r);
      PlanNextHands(trace, cfg, r);
      RunLoopHands(trace, cfg, t);
      HandsTrans(r, t, RunLoop(trace, cfg, t));
    } else {
      var t := Evict(trace, cfg, r);
      EvictHands(trace, cfg, r);
      if |r.s.running| != |r.plan| + 1 {
        RunLoopHands(trace, cfg, t);
        HandsTrans(r, t, RunLoop(trace, cfg, t));
      }
    }
  }

  /** Taking over cached blocks moves no key and touches the admitted request only. */
  lemma AdoptedPool(trace: seq<Request>, cfg: Config, r: Run)
    requires Admitting(trace, cfg, r) && Open(cfg, r) && HeadOffer(trace, cfg, r).fits
    ensures var s, x := Adopted(trace, cfg, r), r.s.waiting[0];
            && s.pool.cached == r.s.pool.cached && s.pool.key == r.s.pool.key && Inv(trace, cfg, s, 0, r.plan)
            && (forall y :: y in r.s.prog && y != x ==> y in s.prog && s.prog[y] == r.s.prog[y])
  {
    var o := HeadOffer(trace, cfg, r);
    AdmitGrows(trace, cfg, r.s, r.plan, r.budget);
    assert Counted(r.s.pool) && Shape(r.s.pool);
    AdoptCached(r.s.pool, o.blocks);
    AdoptKey(r.s.pool, o.blocks);
    hide Inv, AllComplete, Consider, Adopt;
  }

  lemma {:induction false} AdoptKey(p: Pool, bs: seq<nat>)
    requires Shape(p) && Below(bs, |p.ref|) && Counted(p)
    ensures Adopt(p, bs).key == p.key
    decreases |bs|
  {
    if bs != [] { AdoptKey(Adopt1(p, bs[0]), bs[1..]); }
  }

  lemma AdmitHeadHands(trace: seq<Request>, cfg: Config, r: Run)
    requires Admitting(trace, cfg, r) && Open(cfg, r) && HeadOffer(trace, cfg, r).fits
    ensures Hands(r, AdmitHead(trace, cfg, r))
  {
    var s, x, n := Adopted(trace, cfg, r), r.s.waiting[0], HeadOffer(trace, cfg, r).tokens;
    AdoptedPool(trace, cfg, r);
    AdmitHeadGrows(trace, cfg, r);
    HeadApart(trace, cfg, r);
    PoolParts(trace, cfg, s, r.plan);
    hide *;
    GrowHands(trace, s, |r.plan|, n);
    AdoptedHands(r, s, AdmitHead(trace, cfg, r), x);
  }

  /** Growth after the head `x` of the queue took over its cached blocks. */
  lemma AdoptedHands(r: Run, s: EngineState, t: Run, x: nat)
    requires |t.plan| == |r.plan| + 1 && r.plan <= t.plan && t.plan[|r.plan|].rid == x
    requires |t.s.pool.key| == |s.pool.key| && x in t.s.prog && s.pool.cached == r.s.pool.cached && s.pool.key == r.s.pool.key
    requires forall y :: y in r.s.prog && y != x ==> y in s.prog && s.prog[y] == r.s.prog[y]
    requires forall y :: y in s.prog && y != x ==> y in t.s.prog && t.s.prog[y] == s.prog[y]
    requires forall j :: 0 <= j < |r.plan| ==> r.plan[j].rid in r.s.prog && r.plan[j].rid != x
    requires forall b :: 0 <= b < |s.pool.key| && s.pool.key[b] == None ==> t.s.pool.key[b] == None
    requires Extends(t.s.pool.cached, s.pool.cached)
    requires forall k :: k in s.pool.cached && k !in t.s.pool.cached ==> Holds(t.s, x, s.pool.cached[k])
    ensures Hands(r, t)
  {
    HandedNext(r, t, x);
    hide Extends, Holds, HandedOut;
  }

  lemma AdmitHeadGrows(trace: seq<Request>, cfg: Config, r: Run)
    requires Admitting(trace, cfg, r) && Open(cfg, r) && HeadOffer(trace, cfg, r).fits
    ensures var s, t, n := Adopted(trace, cfg, r), AdmitHead(trace, cfg, r), HeadOffer(trace, cfg, r).tokens;
            && Defined(trace, s) && |r.plan| < |s.running| && s.running[|r.plan|] == r.s.waiting[0]
            && Need(s, s.running[|r.plan|], s.prog[s.running[|r.plan|]].computed + n) <= |s.pool.free|
            && t.s == GrowNext(trace, s, |r.plan|, n)
            && t.plan == r.plan + [Chunk(r.s.waiting[0], n)]
  {
    assert Inv(trace, cfg, Adopted(trace, cfg, r), 0, r.plan);
    PoolParts(trace, cfg, Adopted(trace, cfg, r), r.plan);
    hide Inv, Adopted, AllComplete, Consider, Order, GrowNext;
  }

  lemma HeadApart(trace: seq<Request>, cfg: Config, r: Run)
    requires Admitting(trace, cfg, r) && r.s.waiting != []
    ensures forall j :: 0 <= j < |r.plan| ==> r.plan[j].rid in r.s.prog && r.plan[j].rid != r.s.waiting[0]
  {
    PoolParts(trace, cfg, r.s, r.plan);
    PlanPositions(trace, cfg, r);
    hide Inv, AllComplete, CacheInverse;
  }

  lemma {:induction false} AdmitLoopHands(trace: seq<Request>, cfg: Config, r: Run)
    requires Admitting(trace, cfg, r)
    ensures Hands(r, AdmitLoop(trace, cfg, r))
    decreases |r.s.waiting|
  {
    if Open(cfg, r) && HeadOffer(trace, cfg, r).fits {
      hide Admitting, Open, HeadOffer, AdmitHead, Hands;
      AdmitHeadHands(trace, cfg, r);
      var t := AdmitHead(trace, cfg, r);
      AdmitLoopHands(trace, cfg, t);
      HandsTrans(r, t, AdmitLoop(trace, cfg, t));
    } else {
      hide Open, HeadOffer, AdmitHead, Hands;
      HandsRefl(trace, cfg, r);
    }
  }

  /**
   schedule caches nothing, and a key leaves the cache only because its own block has been allocated: at the
   end that block is in the table of a request of the plan and carries no key.
   */
  lemma ScheduleLoses(trace: seq<Request>, cfg: Config, s: EngineState)
    requires Usable(trace, cfg) && Inv(trace, cfg, s, 0, [])
    ensures var t := Schedule(trace, cfg, s);
            && Extends(t.s.pool.cached, s.pool.cached)
            && forall k :: k in s.pool.cached && k !in t.s.pool.cached ==> HandedOut(t, s.pool.cached[k])
  {
    var r := Run(s, [], cfg.tokenBudget, false);
    EmptyPlan(trace, cfg, s);
    RunLoopHands(trace, cfg, r);
    var t := RunLoop(trace, cfg, r);
    hide Inv, AllComplete, RunLoop, AdmitLoop, HandedOut, Extends, Planning;
    if !t.preempted {
      AdmitLoopHands(trace, cfg, t);
      HandsTrans(r, t, AdmitLoop(trace, cfg, t));
    }
  }

  // ---------------------------------------------------------------------------------------
  // What a later request finds

  /**
   Prefix reuse. A request whose first `m` keys are those of a served request, looked at while none of the
   keys cached then has been lost, is offered at least these blocks, up to its last token; exactly these when
   its next key is not cached.
   */
  lemma HitsAfterServing(trace: seq<Request>, cfg: Config, s: EngineState, off: nat, plan: seq<Chunk>, now: int,
                         u: EngineState, budget: nat, m: nat)
    requires Pending(trace, cfg, s, off, plan) && plan[0].rid in s.prog
    requires Served(trace, cfg, s, off, plan, now).s.pool.cached.Keys <= u.pool.cached.Keys
    requires Defined(trace, u) && u.waiting != [] && CacheInverse(u.pool) && Length(trace, u, u.waiting[0]) >= 1
    requires m <= (s.prog[plan[0].rid].computed + plan[0].tokens) / BLOCK && plan[0].rid < |trace|
    requires forall i :: 0 <= i < m ==> KeyOf(trace, u.waiting[0], i) == KeyOf(trace, plan[0].rid, i)
    ensures var hit, full := |Consider(trace, u, budget).blocks|, (Length(trace, u, u.waiting[0]) - 1) / BLOCK;
            && hit >= Min(m, full)
            && (KeyOf(trace, u.waiting[0], m) !in u.pool.cached ==> hit == Min(m, full))
  {
    var x, y := plan[0].rid, u.waiting[0];
    assert x < |trace| && y < |trace|;
    hide Pending, Served, Inv, Consider, Lacks, Defined, CacheInverse;
    ServedCaches(trace, cfg, s, off, plan, now);
    OfferMeaning(trace, u, budget);
    forall i | 0 <= i < m ensures KeyOf(trace, y, i) in u.pool.cached {
      assert KeyOf(trace, x, i) in Served(trace, cfg, s, off, plan, now).s.pool.cached;
    }
  }

  /** Blocks of different requests share a key exactly if both are prompt blocks of the trace with the same id. */
  lemma KeyMeans(trace: seq<Request>, x: nat, y: nat, i: nat, j: nat)
    requires x < |trace| && y < |trace|
    ensures KeyOf(trace, x, i) == KeyOf(trace, y, j) <==>
              || (i < |trace[x].keys| && j < |trace[y].keys| && trace[x].keys[i] == trace[y].keys[j])
              || (x == y && i == j && i >= |trace[x].keys|)
  {
  }

  /** Prefix reuse across requests: the leading prompt blocks two requests share are found. */
  lemma SharedPromptHits(trace: seq<Request>, cfg: Config, s: EngineState, off: nat, plan: seq<Chunk>, now: int,
                         u: EngineState, budget: nat, m: nat)
    requires Pending(trace, cfg, s, off, plan) && plan[0].rid in s.prog
    requires Served(trace, cfg, s, off, plan, now).s.pool.cached.Keys <= u.pool.cached.Keys
    requires Defined(trace, u) && u.waiting != [] && CacheInverse(u.pool) && Length(trace, u, u.waiting[0]) >= 1
    requires m <= (s.prog[plan[0].rid].computed + plan[0].tokens) / BLOCK && plan[0].rid < |trace|
    requires m <= |trace[plan[0].rid].keys| && m <= |trace[u.waiting[0]].keys|
    requires trace[plan[0].rid].keys[..m] == trace[u.waiting[0]].keys[..m]
    ensures |Consider(trace, u, budget).blocks| >= Min(m, (Length(trace, u, u.waiting[0]) - 1) / BLOCK)
  {
    var x, y := plan[0].rid, u.waiting[0];
    forall i | 0 <= i < m ensures KeyOf(trace, y, i) == KeyOf(trace, x, i) {
      assert trace[x].keys[i] == trace[x].keys[..m][i] == trace[y].keys[..m][i] == trace[y].keys[i];
    }
    hide Pending, Served, Inv, Consider, Defined, CacheInverse, KeyOf;
    HitsAfterServing(trace, cfg, s, off, plan, now, u, budget, m);
  }
}
