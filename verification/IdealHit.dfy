/**
 The infinite shared cache of run_reuse_sweep.py (ideal_hit) bounds the prefix hits of every engine run,
 whatever the policy, the number of instances and their capacity.
 */
module IdealHit {
  import opened Common
  import opened BlockPool
  import opened Scheduling
  import opened ScheduleSteps
  import opened ScheduleLoops
  import opened ScheduleTheorems
  import opened FinishSteps
  import opened FinishLoops
  import opened ProgressBound
  import opened DispatchOrder

  /** Some request of `before` has the key in its prompt. */
  ghost predicate SeenIn(trace: seq<Request>, before: seq<nat>, id: nat) {
    exists i :: 0 <= i < |before| && before[i] < |trace| && id in trace[before[i]].keys
  }

  /** Length of the leading run of keys that occur in requests of `before`. */
  ghost function Lead(trace: seq<Request>, before: seq<nat>, keys: seq<nat>): (n: nat)
    ensures n <= |keys|
    ensures forall i :: 0 <= i < n ==> SeenIn(trace, before, keys[i])
    ensures n < |keys| ==> !SeenIn(trace, before, keys[n])
  {
    if keys == [] || !SeenIn(trace, before, keys[0]) then 0 else 1 + Lead(trace, before, keys[1..])
  }

  /** The hit in tokens that the infinite cache credits request `r` after the requests of `before`. */
  ghost function Credit(trace: seq<Request>, before: seq<nat>, r: nat): int
    requires r < |trace|
  {
    Min(Lead(trace, before, trace[r].keys), (trace[r].inputLen - 1) / BLOCK) * BLOCK
  }

  /** Earlier history never lowers the credit. */
  lemma {:induction false} LeadMonotone(trace: seq<Request>, a: seq<nat>, b: seq<nat>, keys: seq<nat>)
    requires forall i :: 0 <= i < |a| ==> a[i] in b
    ensures Lead(trace, a, keys) <= Lead(trace, b, keys)
  {
    if keys != [] && SeenIn(trace, a, keys[0]) {
      var i :| 0 <= i < |a| && a[i] < |trace| && keys[0] in trace[a[i]].keys;
      var j :| 0 <= j < |b| && b[j] == a[i];
      LeadMonotone(trace, a, b, keys[1..]);
    }
  }

  lemma CreditMonotone(trace: seq<Request>, a: seq<nat>, b: seq<nat>, r: nat)
    requires r < |trace| && forall i :: 0 <= i < |a| ==> a[i] in b
    ensures Credit(trace, a, r) <= Credit(trace, b, r)
  {
    LeadMonotone(trace, a, b, trace[r].keys);
  }

  // ---------------------------------------------------------------------------------------
  // Where cached keys come from

  ghost predicate KeyFrom(trace: seq<Request>, admitted: seq<nat>, k: Key) {
    match k
    case Trace(id) => SeenIn(trace, admitted, id)
    case Out(rid, _) => rid in admitted
  }

  /** Every cached key belongs to a request that has been admitted. */
  ghost predicate Origin(trace: seq<Request>, admitted: seq<nat>, cached: map<Key, nat>) {
    forall k :: k in cached ==> KeyFrom(trace, admitted, k)
  }

  lemma KeyFromMonotone(trace: seq<Request>, a: seq<nat>, b: seq<nat>, k: Key)
    requires a <= b && KeyFrom(trace, a, k)
    ensures KeyFrom(trace, b, k)
  {
    match k
    case Trace(id) =>
      var i :| 0 <= i < |a| && a[i] < |trace| && id in trace[a[i]].keys;
      assert b[i] == a[i];
    case Out(rid, _) =>
      var i :| 0 <= i < |a| && a[i] == rid;
      assert b[i] == rid;
  }

  lemma OriginShrinks(trace: seq<Request>, a: seq<nat>, b: seq<nat>, c: map<Key, nat>, d: map<Key, nat>)
    requires Origin(trace, a, c) && a <= b && d.Keys <= c.Keys
    ensures Origin(trace, b, d)
  {
    forall k | k in d ensures KeyFrom(trace, b, k) {
      assert k in c.Keys;
      KeyFromMonotone(trace, a, b, k);
    }
  }

  lemma OwnKeyFrom(trace: seq<Request>, admitted: seq<nat>, r: nat, i: nat)
    requires r < |trace| && r in admitted
    ensures KeyFrom(trace, admitted, KeyOf(trace, r, i))
  {
    var j :| 0 <= j < |admitted| && admitted[j] == r;
  }

  lemma {:induction false} ReleaseCached(p: Pool, table: seq<nat>)
    requires Shape(p) && Below(table, |p.ref|)
    ensures Release(p, table).cached == p.cached
    decreases |table|
  {
    if table != [] { ReleaseCached(Unref(p, table[|table| - 1]), table[..|table| - 1]); }
  }

  lemma {:induction false} AdoptCached(p: Pool, bs: seq<nat>)
    requires Shape(p) && Below(bs, |p.ref|) && Counted(p)
    ensures Adopt(p, bs).cached == p.cached
    decreases |bs|
  {
    if bs != [] { AdoptCached(Adopt1(p, bs[0]), bs[1..]); }
  }

  lemma {:induction false} TakeCached(p: Pool, n: nat)
    requires Shape(p) && n <= |p.free|
    ensures Take(p, n).0.cached.Keys <= p.cached.Keys
    decreases n
  {
    if n > 0 { TakeCached(TakeOne(p), n - 1); }
  }

  lemma {:induction false} CacheFullOrigin(trace: seq<Request>, admitted: seq<nat>, pool: Pool, r: nat,
                                           table: seq<nat>, i: nat, n: nat)
    requires r < |trace| && Shape(pool) && Below(table, |pool.ref|) && n <= |table|
    requires r in admitted && Origin(trace, admitted, pool.cached)
    ensures Origin(trace, admitted, CacheFull(trace, pool, r, table, i, n).cached)
    decreases n - i
  {
    if i < n {
      OwnKeyFrom(trace, admitted, r, i);
      CacheFullOrigin(trace, admitted, CacheOne(trace, pool, r, table, i), r, table, i + 1, n);
    }
  }

  // ---------------------------------------------------------------------------------------
  // The bound, as an invariant

  /** Every recorded hit is within the credit over the requests dispatched before to the same engine. */
  ghost predicate HitsCredited(trace: seq<Request>, s: EngineState) {
    forall j :: 0 <= j < |s.dispatched| ==>
      && s.dispatched[j] < |trace| && s.dispatched[j] in s.prog
      && (s.prog[s.dispatched[j]].engineHit.Some? ==>
            s.prog[s.dispatched[j]].engineHit.value <= Credit(trace, s.dispatched[..j], s.dispatched[j]))
  }

  ghost predicate Credited(trace: seq<Request>, s: EngineState) {
    History(s) && Origin(trace, s.admitted, s.pool.cached) && HitsCredited(trace, s)
  }

  /** Hits of one request do not change after its first admission. */
  lemma HitsKept(trace: seq<Request>, s: EngineState, t: EngineState)
    requires HitsCredited(trace, s) && t.dispatched == s.dispatched
    requires forall r :: r in s.prog ==> r in t.prog && t.prog[r].engineHit == s.prog[r].engineHit
    ensures HitsCredited(trace, t)
  {
  }

  /** A first admission finds at most what earlier dispatched requests have in their prompts. */
  lemma FirstHitCredited(trace: seq<Request>, s: EngineState, budget: nat)
    requires Defined(trace, s) && s.waiting != [] && CacheInverse(s.pool) && Length(trace, s, s.waiting[0]) >= 1
    requires Origin(trace, s.admitted, s.pool.cached)
    requires s.waiting[0] !in s.admitted && s.prog[s.waiting[0]].generated == 0
    ensures |Consider(trace, s, budget).blocks| * BLOCK <= Credit(trace, s.admitted, s.waiting[0])
  {
    var r := s.waiting[0];
    FirstOffer(trace, s, budget);
    PromptHits(trace, s.admitted, s.pool.cached, r, trace[r].inputLen / BLOCK);
    hide Consider, HitBlocks, Lead, Origin, Defined, Keys;
  }

  /** Before its first output a request is offered the cached prefix of its prompt, short of the last token. */
  lemma FirstOffer(trace: seq<Request>, s: EngineState, budget: nat)
    requires Defined(trace, s) && s.waiting != [] && CacheInverse(s.pool) && Length(trace, s, s.waiting[0]) >= 1
    requires s.prog[s.waiting[0]].generated == 0
    ensures var r := s.waiting[0];
            |Consider(trace, s, budget).blocks| ==
            Min(HitBlocks(s.pool.cached, Keys(trace, r, trace[r].inputLen / BLOCK)), (trace[r].inputLen - 1) / BLOCK)
  {
    hide HitBlocks, Keys, CacheInverse, Shape, Below, Evictable;
  }

  /** Cached keys of a request that was never admitted are trace keys of requests that were. */
  lemma PromptHits(trace: seq<Request>, admitted: seq<nat>, cached: map<Key, nat>, r: nat, n: nat)
    requires r < |trace| && Origin(trace, admitted, cached) && r !in admitted
    ensures HitBlocks(cached, Keys(trace, r, n)) <= Lead(trace, admitted, trace[r].keys)
  {
    var keys := Keys(trace, r, n);
    var hit := HitBlocks(cached, keys);
    hide Lead;
    forall i | 0 <= i < hit ensures keys[i] in cached && i < |trace[r].keys| {
      assert KeyFrom(trace, admitted, keys[i]);
    }
    assert hit > 0 ==> keys[hit - 1] in cached;
    forall i | 0 <= i < hit ensures SeenIn(trace, admitted, trace[r].keys[i]) {
      assert KeyFrom(trace, admitted, keys[i]);
    }
    LeadAtLeast(trace, admitted, trace[r].keys, hit);
  }

  lemma LeadAtLeast(trace: seq<Request>, before: seq<nat>, keys: seq<nat>, n: nat)
    requires n <= |keys| && forall i :: 0 <= i < n ==> SeenIn(trace, before, keys[i])
    ensures Lead(trace, before, keys) >= n
  {
  }

  // ---------------------------------------------------------------------------------------
  // The engine keeps it

  lemma SubmitHits(trace: seq<Request>, s: EngineState, r: nat)
    requires HitsCredited(trace, s) && r < |trace| && r !in s.prog
    ensures HitsCredited(trace, Submit(s, r))
  {
    hide Credit;
    var t := Submit(s, r);
    assert forall j :: 0 <= j < |s.dispatched| ==>
      t.dispatched[j] == s.dispatched[j] && t.dispatched[..j] == s.dispatched[..j]
      && t.prog[s.dispatched[j]] == s.prog[s.dispatched[j]];
  }

  lemma SubmitCredited(trace: seq<Request>, s: EngineState, r: nat)
    requires Credited(trace, s) && r < |trace| && r !in s.prog
    ensures Credited(trace, Submit(s, r))
  {
    hide History, HitsCredited, Origin;
    SubmitHistory(s, r);
    SubmitHits(trace, s, r);
  }

  lemma GrowCached(trace: seq<Request>, s: EngineState, i: nat, tokens: nat)
    requires Defined(trace, s) && i < |s.running|
    requires Need(s, s.running[i], s.prog[s.running[i]].computed + tokens) <= |s.pool.free|
    ensures GrowNext(trace, s, i, tokens).pool.cached.Keys <= s.pool.cached.Keys
  {
    hide Take;
    var x := s.running[i];
    TakeCached(s.pool, Max(0, Need(s, x, s.prog[x].computed + tokens)));
  }

  lemma PlanNextCached(trace: seq<Request>, cfg: Config, r: Run)
    requires Planning(trace, cfg, r) && Unplanned(r) && NextFits(trace, cfg, r)
    ensures PlanNext(trace, cfg, r).s.pool.cached.Keys <= r.s.pool.cached.Keys
  {
    assert Defined(trace, r.s);
    hide Inv, AllComplete, GrowNext;
    GrowCached(trace, r.s, |r.plan|, NextTokens(trace, cfg, r));
  }

  lemma EvictCached(trace: seq<Request>, cfg: Config, r: Run)
    requires Planning(trace, cfg, r) && |r.plan| < |r.s.running|
    ensures Evict(trace, cfg, r).s.pool.cached == r.s.pool.cached
  {
    assert Defined(trace, r.s);
    hide Inv, AllComplete, PreemptTail, Planning;
    PreemptCached(trace, r.s);
  }

  lemma PreemptCached(trace: seq<Request>, s: EngineState)
    requires Defined(trace, s) && s.running != []
    ensures PreemptTail(trace, s).pool.cached == s.pool.cached
  {
    hide Release, Shape;
    ReleaseCached(s.pool, s.prog[s.running[|s.running| - 1]].table);
  }

  lemma {:induction false} RunLoopCached(trace: seq<Request>, cfg: Config, r: Run)
    requires Planning(trace, cfg, r)
    ensures RunLoop(trace, cfg, r).s.pool.cached.Keys <= r.s.pool.cached.Keys
    decreases |r.s.running| - |r.plan|
  {
    RunLoopSteps(trace, cfg, r);
    hide Planning, NextFits, PlanNext, Evict, Order, NextTokens, RunLoop;
    if !Unplanned(r) {
    } else if NextFits(trace, cfg, r) {
      PlanNextCached(trace, cfg, r);
      RunLoopCached(trace, cfg, PlanNext(trace, cfg, r));
    } else {
      EvictCached(trace, cfg, r);
      if |r.s.running| != |r.plan| + 1 { RunLoopCached(trace, cfg, Evict(trace, cfg, r)); }
    }
  }

  lemma AdmitHeadCached(trace: seq<Request>, cfg: Config, r: Run)
    requires Admitting(trace, cfg, r) && Open(cfg, r) && HeadOffer(trace, cfg, r).fits
    ensures AdmitHead(trace, cfg, r).s.pool.cached.Keys <= r.s.pool.cached.Keys
  {
    var o := HeadOffer(trace, cfg, r);
    AdmitGrows(trace, cfg, r.s, r.plan, r.budget);
    AdoptedDefined(trace, cfg, r);
    assert Counted(r.s.pool) && Shape(r.s.pool);
    AdoptCached(r.s.pool, o.blocks);
    var s := Adopted(trace, cfg, r);
    assert s.pool.cached == r.s.pool.cached;
    hide Inv, AllComplete, GrowNext, HeadOffer, Adopted;
    GrowCached(trace, s, |r.plan|, o.tokens);
  }

  /** A first admission's hit is credited by the requests dispatched before. */
  lemma AdmitHeadHit(trace: seq<Request>, cfg: Config, r: Run)
    requires Admitting(trace, cfg, r) && Open(cfg, r) && HeadOffer(trace, cfg, r).fits && Credited(trace, r.s)
    requires r.s.waiting[0] in r.s.prog && r.s.prog[r.s.waiting[0]].engineHit.None?
    ensures r.s.waiting[0] < |trace|
    ensures |HeadOffer(trace, cfg, r).blocks| * BLOCK <= Credit(trace, r.s.admitted, r.s.waiting[0])
  {
    hide Plans, OwnKeys, AllComplete, Unshared, Held, Consider, Live, Distinct;
    FirstHitCredited(trace, r.s, r.budget);
  }

  lemma AdmissionCredited(trace: seq<Request>, s: EngineState, t: EngineState, hit: nat)
    requires Credited(trace, s) && AdmittedFrom(s, t, hit) && History(t)
    requires t.pool.cached.Keys <= s.pool.cached.Keys
    requires s.prog[s.waiting[0]].engineHit.None? ==>
               s.waiting[0] < |trace| && hit <= Credit(trace, s.admitted, s.waiting[0])
    ensures Credited(trace, t)
  {
    hide Credit, Live, Distinct;
    assert s.admitted <= t.admitted;
    OriginShrinks(trace, s.admitted, t.admitted, s.pool.cached, t.pool.cached);
    var x := s.waiting[0];
    if s.prog[x].engineHit.None? {
      var m := |s.admitted|;
      assert t.admitted[m] == x && t.dispatched[m] == x && t.dispatched[..m] == s.admitted;
      assert Distinct(t.dispatched);
      OnlyAt(t.dispatched, m);
    }
  }

  lemma OnlyAt(d: seq<nat>, m: nat)
    requires Distinct(d) && m < |d|
    ensures forall j :: 0 <= j < |d| && d[j] == d[m] ==> j == m
  {
  }

  lemma {:induction false} AdmitLoopCredited(trace: seq<Request>, cfg: Config, r: Run)
    requires Admitting(trace, cfg, r) && Credited(trace, r.s)
    ensures Credited(trace, AdmitLoop(trace, cfg, r).s)
    decreases |r.s.waiting|
  {
    if Open(cfg, r) && HeadOffer(trace, cfg, r).fits {
      AdmitReady(trace, cfg, r);
      AdmitHeadOutputs(trace, cfg, r);
      AdmitHeadCached(trace, cfg, r);
      var t, hit := AdmitHead(trace, cfg, r), |HeadOffer(trace, cfg, r).blocks| * BLOCK;
      hide Admitting, Open, HeadOffer, AdmitHead, History, Order, Origin, HitsCredited, Credit;
      AdmissionHistory(r.s, t.s, hit);
      if r.s.prog[r.s.waiting[0]].engineHit.None? { AdmitHeadHit(trace, cfg, r); }
      AdmissionCredited(trace, r.s, t.s, hit);
      AdmitLoopCredited(trace, cfg, t);
    }
  }

  lemma ScheduleCredited(trace: seq<Request>, cfg: Config, s: EngineState)
    requires Usable(trace, cfg) && Inv(trace, cfg, s, 0, []) && Credited(trace, s)
    ensures Credited(trace, Schedule(trace, cfg, s).s)
  {
    var r := Run(s, [], cfg.tokenBudget, false);
    EmptyPlan(trace, cfg, s);
    RunLoopOutputs(trace, cfg, r);
    RunLoopCached(trace, cfg, r);
    var t := RunLoop(trace, cfg, r);
    hide Inv, AllComplete, History, RunLoop, Origin, HitsCredited;
    HistoryKept(s, t.s);
    OriginShrinks(trace, s.admitted, t.s.admitted, s.pool.cached, t.s.pool.cached);
    HitsKept(trace, s, t.s);
    if !t.preempted { AdmitLoopCredited(trace, cfg, t); }
  }

  // ---------------------------------------------------------------------------------------
  // finish_step

  lemma BookCached(trace: seq<Request>, s: EngineState, c: Chunk)
    requires Defined(trace, s) && c.rid in s.prog && c.rid in s.admitted
    requires (s.prog[c.rid].computed + c.tokens) / BLOCK <= |s.prog[c.rid].table|
    requires Origin(trace, s.admitted, s.pool.cached)
    ensures Origin(trace, s.admitted, Book(trace, s, c).pool.cached)
  {
    hide Origin, CacheFull;
    CacheFullOrigin(trace, s.admitted, s.pool, c.rid, s.prog[c.rid].table, 0, (s.prog[c.rid].computed + c.tokens) / BLOCK);
  }

  lemma FinishOneCached(trace: seq<Request>, s: EngineState, c: Chunk, now: int)
    requires Defined(trace, s) && c.rid in s.running
    requires c.rid in s.prog && (s.prog[c.rid].computed + c.tokens) / BLOCK <= |s.prog[c.rid].table|
    ensures FinishOne(trace, s, c, now).s.pool.cached == Book(trace, s, c).pool.cached
  {
    assert c.rid in Book(trace, s, c).prog;
    hide Book, Release;
    var u := MarkFirst(Book(trace, s, c), c.rid, now);
    if u.prog[c.rid].generated >= trace[c.rid].outputLen && s.prog[c.rid].computed + c.tokens >= Length(trace, s, c.rid) {
      MarkedDefined(trace, Book(trace, s, c), c.rid, now);
      ReleaseCached(u.pool, u.prog[c.rid].table);
    }
  }

  /** What finish_step caches for one request comes from the requests admitted so far. */
  lemma ServedOrigin(trace: seq<Request>, cfg: Config, s: EngineState, off: nat, plan: seq<Chunk>, now: int)
    requires Pending(trace, cfg, s, off, plan) && plan[0].rid in s.admitted && Origin(trace, s.admitted, s.pool.cached)
    ensures Origin(trace, s.admitted, Served(trace, cfg, s, off, plan, now).s.pool.cached)
  {
    PendingChunk(trace, cfg, s, off, plan);
    PendingDefined(trace, cfg, s, off, plan);
    hide Inv, Origin, Order, Book, Distinct, FinishOne, Defined, Pending;
    BookCached(trace, s, plan[0]);
    FinishOneCached(trace, s, plan[0], now);
  }

  lemma PendingDefined(trace: seq<Request>, cfg: Config, s: EngineState, off: nat, plan: seq<Chunk>)
    requires Pending(trace, cfg, s, off, plan)
    ensures Defined(trace, s)
  {}

  lemma ServedCredited(trace: seq<Request>, cfg: Config, s: EngineState, off: nat, plan: seq<Chunk>, now: int)
    requires Pending(trace, cfg, s, off, plan) && Orderly(trace, cfg, s, off, plan) && Credited(trace, s)
    ensures Credited(trace, Served(trace, cfg, s, off, plan, now).s)
  {
    hide Inv, History, Origin, HitsCredited, Order, Served, Distinct, Pending, Orderly;
    ServedKeepsHits(trace, cfg, s, off, plan, now);
    ServedHistory(trace, cfg, s, off, plan, now);
    ServedOrigin(trace, cfg, s, off, plan, now);
    HitsKept(trace, s, Served(trace, cfg, s, off, plan, now).s);
  }

  lemma ServedHistory(trace: seq<Request>, cfg: Config, s: EngineState, off: nat, plan: seq<Chunk>, now: int)
    requires Pending(trace, cfg, s, off, plan) && Orderly(trace, cfg, s, off, plan)
    ensures History(Served(trace, cfg, s, off, plan, now).s)
  {
    hide Served, Pending, History, Inv;
    ServedOrderly(trace, cfg, s, off, plan, now);
  }

  lemma ServedKeepsHits(trace: seq<Request>, cfg: Config, s: EngineState, off: nat, plan: seq<Chunk>, now: int)
    requires Pending(trace, cfg, s, off, plan) && Orderly(trace, cfg, s, off, plan)
    ensures plan != [] && plan[0].rid in s.admitted
    ensures var t := Served(trace, cfg, s, off, plan, now).s;
            && t.admitted == s.admitted && t.dispatched == s.dispatched
            && forall r :: r in s.prog ==> r in t.prog && t.prog[r].engineHit == s.prog[r].engineHit
  {
    hide Inv, History, Order, Served, Distinct, Pending, Orderly, Usable, Completes, Leaves, RemoveAt;
    ServedAdmitted(trace, cfg, s, off, plan);
    ServedStep(trace, cfg, s, off, plan, now);
  }

  /** A request in the plan has been admitted. */
  lemma ServedAdmitted(trace: seq<Request>, cfg: Config, s: EngineState, off: nat, plan: seq<Chunk>)
    requires Pending(trace, cfg, s, off, plan) && Orderly(trace, cfg, s, off, plan)
    ensures plan != [] && plan[0].rid in s.admitted
  {
    PendingChunk(trace, cfg, s, off, plan);
    hide Inv, Known, Live, Order, Distinct, Usable;
  }

  lemma {:induction false} FinishLoopCredited(trace: seq<Request>, cfg: Config, s: EngineState, off: nat,
                                              plan: seq<Chunk>, now: int)
    requires Usable(trace, cfg) && Inv(trace, cfg, s, off, plan) && Orderly(trace, cfg, s, off, plan)
    requires Credited(trace, s)
    ensures Credited(trace, FinishLoop(trace, cfg, s, off, plan, now).s)
    decreases |plan|
  {
    if plan != [] {
      assert Pending(trace, cfg, s, off, plan);
      FinishLoopStep(trace, cfg, s, off, plan, now);
      hide Inv, Served, Usable, FinishLoop, NextOff, Orderly, Credited;
      ServedOrderly(trace, cfg, s, off, plan, now);
      ServedCredited(trace, cfg, s, off, plan, now);
      FinishLoopCredited(trace, cfg, Served(trace, cfg, s, off, plan, now).s, NextOff(trace, cfg, s, off, plan), plan[1..], now);
    }
  }

  lemma FinishCredited(trace: seq<Request>, cfg: Config, s: EngineState, plan: seq<Chunk>, now: int)
    requires Usable(trace, cfg) && Inv(trace, cfg, s, 0, plan) && Credited(trace, s)
    ensures Credited(trace, FinishStep(trace, cfg, s, plan, now).s)
  {
    hide Inv, History, FinishLoop, Origin, HitsCredited;
    FinishLoopCredited(trace, cfg, s, 0, plan, now);
  }
}
