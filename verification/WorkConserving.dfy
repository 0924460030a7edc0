/**
 schedule wastes nothing: chunks are as long as the request and the budget allow, every running request is
 served before the queue is looked at, somebody is preempted exactly when the running requests ask for more
 blocks than are free, and the queue waits only for tokens, sequence slots or blocks.
 */
module WorkConserving {
  import opened Common
  import opened BlockPool
  import opened Scheduling
  import opened ScheduleSteps
  import opened ScheduleLoops
  import opened ScheduleTheorems

  // ---------------------------------------------------------------------------------------
  // What the head of the queue asks for

  /**
   The first `h` blocks of request `r` are cached; the next one is not, or is the one that a sequence of
   `length` tokens must leave to compute.
   */
  ghost predicate CachedPrefix(trace: seq<Request>, cached: map<Key, nat>, r: nat, length: nat, h: nat)
    requires r < |trace| && length >= 1
  {
    && h <= (length - 1) / BLOCK
    && (forall i :: 0 <= i < h ==> KeyOf(trace, r, i) in cached)
    && (h < (length - 1) / BLOCK ==> KeyOf(trace, r, h) !in cached)
  }

  /** The positions among the first `h` blocks of `r` whose cached block nobody references. */
  ghost function Unreferenced(trace: seq<Request>, pool: Pool, r: nat, h: nat): set<nat>
    requires r < |trace|
  {
    set i: nat | i < h && IdleHit(trace, pool, r, i)
  }

  ghost predicate IdleHit(trace: seq<Request>, pool: Pool, r: nat, i: nat)
    requires r < |trace|
  {
    var k := KeyOf(trace, r, i);
    k in pool.cached && pool.cached[k] < |pool.ref| && pool.ref[pool.cached[k]] == 0
  }

  /**
   Request `r`, of `length` tokens, cannot start with `budget` tokens: the blocks of its first chunk beyond its
   cached prefix, and the unreferenced ones of the prefix that it would take out of the free queue, exceed the
   free blocks.
   */
  ghost predicate Lacks(trace: seq<Request>, pool: Pool, r: nat, length: nat, budget: nat)
    requires r < |trace| && length >= 1
  {
    exists h: nat | CachedPrefix(trace, pool.cached, r, length, h) ::
      CeilBlocks(h * BLOCK + Min(length - h * BLOCK, budget)) - h + |Unreferenced(trace, pool, r, h)| > |pool.free|
  }

  ghost predicate HeadLacks(trace: seq<Request>, s: EngineState, budget: nat)
    requires Defined(trace, s) && s.waiting != []
  {
    var r := s.waiting[0];
    Length(trace, s, r) >= 1 && Lacks(trace, s.pool, r, Length(trace, s, r), budget)
  }

  lemma PrefixUnique(trace: seq<Request>, cached: map<Key, nat>, r: nat, length: nat, h: nat, k: nat)
    requires r < |trace| && length >= 1
    requires CachedPrefix(trace, cached, r, length, h) && CachedPrefix(trace, cached, r, length, k)
    ensures h == k
  {
  }

  lemma HitIsPrefix(trace: seq<Request>, cached: map<Key, nat>, r: nat, length: nat)
    requires r < |trace| && length >= 1
    ensures CachedPrefix(trace, cached, r, length,
                         Min(HitBlocks(cached, Keys(trace, r, length / BLOCK)), (length - 1) / BLOCK))
  {
  }

  lemma {:induction false} EvictableLast(p: Pool, bs: seq<nat>)
    requires Below(bs, |p.ref|) && bs != []
    ensures Below(bs[..|bs| - 1], |p.ref|) && bs[|bs| - 1] < |p.ref|
    ensures Evictable(p, bs) == Evictable(p, bs[..|bs| - 1]) + if p.ref[bs[|bs| - 1]] == 0 then 1 else 0
  {
    if |bs| > 1 {
      EvictableLast(p, bs[1..]);
      assert bs[1..][..|bs| - 2] == bs[..|bs| - 1][1..];
    }
  }

  lemma UnreferencedNext(trace: seq<Request>, p: Pool, r: nat, n: nat)
    requires r < |trace|
    ensures |Unreferenced(trace, p, r, n + 1)|
            == |Unreferenced(trace, p, r, n)| + if IdleHit(trace, p, r, n) then 1 else 0
  {
    hide IdleHit;
    var a, b := Unreferenced(trace, p, r, n), Unreferenced(trace, p, r, n + 1);
    if IdleHit(trace, p, r, n) { assert b == a + {n}; } else { assert b == a; }
  }

  /** The unreferenced blocks of an offer, counted. */
  lemma {:induction false} EvictableCounts(trace: seq<Request>, p: Pool, r: nat, bs: seq<nat>)
    requires r < |trace| && Below(bs, |p.ref|)
    requires forall i :: 0 <= i < |bs| ==> KeyOf(trace, r, i) in p.cached && bs[i] == p.cached[KeyOf(trace, r, i)]
    ensures Evictable(p, bs) == |Unreferenced(trace, p, r, |bs|)|
  {
    if bs == [] {
      assert Unreferenced(trace, p, r, 0) == {};
    } else {
      var n := |bs| - 1;
      EvictableLast(p, bs);
      assert IdleHit(trace, p, r, n) <==> p.ref[bs[n]] == 0;
      hide Evictable, Unreferenced, IdleHit, KeyOf;
      EvictableCounts(trace, p, r, bs[..n]);
      UnreferencedNext(trace, p, r, n);
    }
  }

  /**
   What the head of the queue is offered, whether it is new or comes back after a preemption with outputs: the
   blocks of its longest cached prefix short of its last token, as many of its other tokens as the budget
   allows, and admission exactly if there are blocks for both.
   */
  lemma OfferMeaning(trace: seq<Request>, s: EngineState, budget: nat)
    requires Defined(trace, s) && s.waiting != [] && CacheInverse(s.pool) && Length(trace, s, s.waiting[0]) >= 1
    ensures var r, o := s.waiting[0], Consider(trace, s, budget);
            var length := Length(trace, s, r);
            && CachedPrefix(trace, s.pool.cached, r, length, |o.blocks|)
            && (forall i :: 0 <= i < |o.blocks| ==> o.blocks[i] == s.pool.cached[KeyOf(trace, r, i)])
            && o.tokens == Min(length - |o.blocks| * BLOCK, budget)
            && (o.fits <==> !Lacks(trace, s.pool, r, length, budget))
  {
    var r, o := s.waiting[0], Consider(trace, s, budget);
    var length := Length(trace, s, r);
    HitIsPrefix(trace, s.pool.cached, r, length);
    EvictableCounts(trace, s.pool, r, o.blocks);
    forall h: nat | CachedPrefix(trace, s.pool.cached, r, length, h) ensures h == |o.blocks| {
      PrefixUnique(trace, s.pool.cached, r, length, h, |o.blocks|);
    }
  }

  // ---------------------------------------------------------------------------------------
  // Where the loops end

  lemma {:induction false} RunLoopPlansAll(trace: seq<Request>, cfg: Config, r: Run)
    requires Planning(trace, cfg, r)
    ensures var t := RunLoop(trace, cfg, r); t.budget == 0 || |t.plan| == |t.s.running|
    decreases |r.s.running| - |r.plan|
  {
    RunLoopSteps(trace, cfg, r);
    PlanWithin(trace, cfg, r);
    hide Planning, NextFits, PlanNext, Evict, Order, NextTokens, RunLoop;
    if Unplanned(r) {
      if NextFits(trace, cfg, r) { RunLoopPlansAll(trace, cfg, PlanNext(trace, cfg, r)); }
      else if |r.s.running| != |r.plan| + 1 { RunLoopPlansAll(trace, cfg, Evict(trace, cfg, r)); }
    }
  }

  lemma {:induction false} AdmitLoopStops(trace: seq<Request>, cfg: Config, r: Run)
    requires Admitting(trace, cfg, r)
    ensures var t := AdmitLoop(trace, cfg, r);
            Admitting(trace, cfg, t) && t.preempted == r.preempted
            && (Open(cfg, t) ==> !HeadOffer(trace, cfg, t).fits)
    decreases |r.s.waiting|
  {
    hide Admitting, Open, HeadOffer, AdmitHead;
    if Open(cfg, r) && HeadOffer(trace, cfg, r).fits {
      AdmitHeadFlag(trace, cfg, r);
      AdmitLoopStops(trace, cfg, AdmitHead(trace, cfg, r));
    }
  }

  lemma AdmitHeadFlag(trace: seq<Request>, cfg: Config, r: Run)
    requires Admitting(trace, cfg, r) && Open(cfg, r) && HeadOffer(trace, cfg, r).fits
    ensures AdmitHead(trace, cfg, r).preempted == r.preempted
  {
    hide Inv, AllComplete, GrowNext, Adopted, Consider;
  }

  /** Some request has been preempted once more. */
  ghost predicate Preempts(s: EngineState, t: EngineState) {
    exists x :: x in s.prog && x in t.prog && t.prog[x].preempted > s.prog[x].preempted
  }

  /** Preemption counters never fall. */
  ghost predicate NoFewer(s: EngineState, t: EngineState) {
    forall x :: x in s.prog ==> x in t.prog && t.prog[x].preempted >= s.prog[x].preempted
  }

  lemma PlanNextCounts(trace: seq<Request>, cfg: Config, r: Run)
    requires Planning(trace, cfg, r) && Unplanned(r) && NextFits(trace, cfg, r)
    ensures var t := PlanNext(trace, cfg, r); NoFewer(r.s, t.s) && t.preempted == r.preempted
  {
    hide Planning, PlanNext, SameOutputs, NoneAdmitted;
    PlanNextKeeps(trace, cfg, r);
  }

  lemma EvictCounts(trace: seq<Request>, cfg: Config, r: Run)
    requires Planning(trace, cfg, r) && |r.plan| < |r.s.running|
    ensures var t := Evict(trace, cfg, r); NoFewer(r.s, t.s) && Preempts(r.s, t.s)
  {
    EvictOutputs(trace, cfg, r);
    var victim := r.s.running[|r.s.running| - 1];
    assert Defined(trace, r.s);
    hide Inv, AllComplete, Release, SameOutputs, Shape, Below;
    assert Evict(trace, cfg, r).s.prog[victim].preempted == r.s.prog[victim].preempted + 1;
  }

  lemma PreemptsTrans(r: EngineState, s: EngineState, t: EngineState)
    requires NoFewer(r, s) && NoFewer(s, t)
    ensures NoFewer(r, t) && (Preempts(r, s) || Preempts(s, t) ==> r.prog.Keys == s.prog.Keys ==> Preempts(r, t))
  {
  }

  /** The loop has preempted somebody exactly if it says so. */
  lemma {:induction false} RunLoopPreempts(trace: seq<Request>, cfg: Config, r: Run)
    requires Planning(trace, cfg, r)
    ensures var t := RunLoop(trace, cfg, r);
            NoFewer(r.s, t.s) && (t.preempted ==> r.preempted || Preempts(r.s, t.s))
    decreases |r.s.running| - |r.plan|
  {
    RunLoopSteps(trace, cfg, r);
    hide Planning, NextFits, PlanNext, Evict, Order, NextTokens, RunLoop, NoFewer, Preempts, SameOutputs;
    if !Unplanned(r) {
      assert NoFewer(r.s, r.s) by { NoFewerRefl(r.s); }
    } else if NextFits(trace, cfg, r) {
      var t := PlanNext(trace, cfg, r);
      PlanNextCounts(trace, cfg, r);
      SameKeys(trace, cfg, r);
      RunLoopPreempts(trace, cfg, t);
      PreemptsTrans(r.s, t.s, RunLoop(trace, cfg, t).s);
    } else {
      var t := Evict(trace, cfg, r);
      EvictCounts(trace, cfg, r);
      SameKeys(trace, cfg, r);
      if |r.s.running| != |r.plan| + 1 {
        RunLoopPreempts(trace, cfg, t);
        PreemptsTrans(r.s, t.s, RunLoop(trace, cfg, t).s);
      }
    }
  }

  lemma NoFewerRefl(s: EngineState)
    ensures NoFewer(s, s)
  {
  }

  lemma SameKeys(trace: seq<Request>, cfg: Config, r: Run)
    requires Planning(trace, cfg, r) && Unplanned(r)
    ensures NextFits(trace, cfg, r) ==> PlanNext(trace, cfg, r).s.prog.Keys == r.s.prog.Keys
    ensures Evict(trace, cfg, r).s.prog.Keys == r.s.prog.Keys
  {
    hide Planning, NextFits, PlanNext, Evict, NextTokens, Order;
    if NextFits(trace, cfg, r) { PlanNextOutputs(trace, cfg, r); }
    EvictOutputs(trace, cfg, r);
  }

  /** Where schedule ends: the local variables of the source, after its two loops. */
  lemma ScheduleEnds(trace: seq<Request>, cfg: Config, s: EngineState)
    requires Usable(trace, cfg) && Inv(trace, cfg, s, 0, [])
    ensures var t := Schedule(trace, cfg, s);
            && Planning(trace, cfg, t) && PlanTokens(t.plan) + t.budget == cfg.tokenBudget
            && (t.budget == 0 || |t.plan| == |t.s.running|)
            && (t.preempted ==> Preempts(s, t.s))
            && (!t.preempted ==> Admitting(trace, cfg, t) && (Open(cfg, t) ==> !HeadOffer(trace, cfg, t).fits))
  {
    var r := Run(s, [], cfg.tokenBudget, false);
    EmptyPlan(trace, cfg, s);
    hide Inv, AllComplete, RunLoop, AdmitLoop, Open, HeadOffer, NoFewer, Preempts;
    RunLoopBudget(trace, cfg, r);
    RunLoopPlansAll(trace, cfg, r);
    RunLoopPreempts(trace, cfg, r);
    var t := RunLoop(trace, cfg, r);
    if !t.preempted {
      AdmitLoopBudget(trace, cfg, t);
      AdmitLoopStops(trace, cfg, t);
    }
  }

  // ---------------------------------------------------------------------------------------
  // The theorems

  /** Why a step admits no more: an empty queue, no tokens, no slots, or no blocks for the head of the queue. */
  ghost predicate NothingToAdmit(trace: seq<Request>, cfg: Config, t: Run) {
    || t.s.waiting == []
    || PlanTokens(t.plan) == cfg.tokenBudget
    || |t.s.running| == cfg.maxSeqs
    || (PlanTokens(t.plan) <= cfg.tokenBudget && Defined(trace, t.s)
        && HeadLacks(trace, t.s, cfg.tokenBudget - PlanTokens(t.plan)))
  }

  /**
   schedule is work-conserving: unless somebody was preempted, it leaves a request in the queue only because
   the token budget is used up, every sequence slot is taken, or the head of the queue lacks blocks.
   */
  lemma WorkConserved(trace: seq<Request>, cfg: Config, s: EngineState)
    requires Usable(trace, cfg) && Inv(trace, cfg, s, 0, [])
    ensures Preempts(s, Schedule(trace, cfg, s).s) || NothingToAdmit(trace, cfg, Schedule(trace, cfg, s))
  {
    ScheduleEnds(trace, cfg, s);
    var t := Schedule(trace, cfg, s);
    hide *;
    if !Preempts(s, t.s) { StoppedConserves(trace, cfg, t); }
  }

  lemma StoppedConserves(trace: seq<Request>, cfg: Config, t: Run)
    requires Admitting(trace, cfg, t) && (Open(cfg, t) ==> !HeadOffer(trace, cfg, t).fits)
    requires PlanTokens(t.plan) + t.budget == cfg.tokenBudget
    ensures NothingToAdmit(trace, cfg, t)
  {
    hide Admitting, Open, HeadOffer, HeadLacks, PlanTokens, Defined;
    if t.s.waiting != [] && t.budget > 0 && |t.s.running| != cfg.maxSeqs {
      StoppedLacks(trace, cfg, t);
      assert t.budget == cfg.tokenBudget - PlanTokens(t.plan);
    }
  }

  /** Admission stops at a head that lacks blocks. */
  lemma StoppedLacks(trace: seq<Request>, cfg: Config, t: Run)
    requires Admitting(trace, cfg, t) && (Open(cfg, t) ==> !HeadOffer(trace, cfg, t).fits)
    requires t.s.waiting != [] && t.budget > 0 && |t.s.running| != cfg.maxSeqs
    ensures Defined(trace, t.s) && HeadLacks(trace, t.s, t.budget)
  {
    assert |t.s.running| <= cfg.maxSeqs;
    HeadLength(trace, cfg, t.s, t.plan);
    OfferMeaning(trace, t.s, t.budget);
    hide Lacks, Consider, AllComplete, Plans, OwnKeys, Distinct, Owned, Records, CachedPrefix;
  }

  lemma HeadLength(trace: seq<Request>, cfg: Config, s: EngineState, plan: seq<Chunk>)
    requires Usable(trace, cfg) && Inv(trace, cfg, s, 0, plan) && s.waiting != []
    ensures Length(trace, s, s.waiting[0]) >= 1 && CacheInverse(s.pool)
  {
    hide Plans, OwnKeys, Records, Distinct, Held;
  }

  /** Chunk `j` is for running position `j`: all the request has to compute, or all that is left of the budget. */
  ghost predicate Greedy(trace: seq<Request>, cfg: Config, t: Run, j: nat)
    requires Defined(trace, t.s) && j < |t.plan| <= |t.s.running|
  {
    var x := t.s.running[j];
    && t.plan[j].rid == x
    && t.plan[j].tokens == Min(Length(trace, t.s, x) - t.s.prog[x].computed, cfg.tokenBudget - PlanTokens(t.plan[..j]))
  }

  /**
   Every chunk of the plan is as long as possible: what the request still has to compute, or what the chunks
   before it have left of the budget. Running requests come first, in their order, and none is left out unless
   the chunks use up the whole budget.
   */
  lemma ChunksGreedy(trace: seq<Request>, cfg: Config, s: EngineState)
    requires Usable(trace, cfg) && Inv(trace, cfg, s, 0, [])
    ensures var t := Schedule(trace, cfg, s);
            && Defined(trace, t.s) && |t.plan| <= |t.s.running|
            && (PlanTokens(t.plan) == cfg.tokenBudget || |t.plan| == |t.s.running|)
            && forall j :: 0 <= j < |t.plan| ==> Greedy(trace, cfg, t, j)
  {
    var t := Schedule(trace, cfg, s);
    ScheduleEnds(trace, cfg, s);
    hide *;
    PlanWithin(trace, cfg, t);
    PlanningDefined(trace, cfg, t);
    forall j | 0 <= j < |t.plan| ensures Greedy(trace, cfg, t, j) {
      ChunkGreedy(trace, cfg, t, j);
    }
  }

  lemma PlanningDefined(trace: seq<Request>, cfg: Config, t: Run)
    requires Planning(trace, cfg, t)
    ensures Defined(trace, t.s)
  {
  }

  lemma ChunkGreedy(trace: seq<Request>, cfg: Config, t: Run, j: nat)
    requires Planning(trace, cfg, t) && PlanTokens(t.plan) + t.budget == cfg.tokenBudget && j < |t.plan|
    ensures Defined(trace, t.s) && |t.plan| <= |t.s.running| && Greedy(trace, cfg, t, j)
  {
    PlanTokensPrefix(t.plan, j);
    hide Owned, OwnKeys, Records, CeilBlocks, PlanTokens, Queues, Usable;
  }

  lemma {:induction false} PlanTokensPrefix(plan: seq<Chunk>, j: nat)
    requires j < |plan|
    ensures PlanTokens(plan[..j]) + plan[j].tokens <= PlanTokens(plan)
    ensures j == |plan| - 1 ==> PlanTokens(plan[..j]) + plan[j].tokens == PlanTokens(plan)
  {
    var n := |plan| - 1;
    if j < n {
      PlanTokensPrefix(plan[..n], j);
      assert plan[..n][..j] == plan[..j];
    }
  }

  // ---------------------------------------------------------------------------------------
  // When somebody is preempted

  /** Blocks that the running requests from position `i` on ask for when they share `budget` tokens in order. */
  ghost function Demand(trace: seq<Request>, s: EngineState, i: nat, budget: nat): int
    requires Defined(trace, s) && i <= |s.running|
    decreases |s.running| - i
  {
    if i == |s.running| || budget == 0 then 0
    else
      var r := s.running[i];
      var n := Min(Length(trace, s, r) - s.prog[r].computed, budget);
      CeilBlocks(s.prog[r].computed + n) - |s.prog[r].table| + Demand(trace, s, i + 1, budget - n)
  }

  lemma {:induction false} DemandPositive(trace: seq<Request>, cfg: Config, s: EngineState, plan: seq<Chunk>,
                                          i: nat, budget: nat)
    requires Inv(trace, cfg, s, 0, plan) && |plan| <= i <= |s.running|
    ensures Demand(trace, s, i, budget) >= 0
    decreases |s.running| - i
  {
    hide Owned, OwnKeys, Queues;
    if i < |s.running| && budget > 0 {
      var r := s.running[i];
      var n := Min(Length(trace, s, r) - s.prog[r].computed, budget);
      assert |s.prog[r].table| == CeilBlocks(s.prog[r].computed + Planned(0, plan, i));
      DemandPositive(trace, cfg, s, plan, i + 1, budget - n);
    }
  }

  lemma {:induction false} DemandSame(trace: seq<Request>, s: EngineState, t: EngineState, i: nat, budget: nat)
    requires Defined(trace, s) && Defined(trace, t) && s.running == t.running && i <= |s.running|
    requires forall j :: i <= j < |s.running| ==> s.prog[s.running[j]] == t.prog[s.running[j]]
    ensures Demand(trace, s, i, budget) == Demand(trace, t, i, budget)
    decreases |s.running| - i
  {
    if i < |s.running| && budget > 0 {
      var r := s.running[i];
      DemandSame(trace, s, t, i + 1, budget - Min(Length(trace, s, r) - s.prog[r].computed, budget));
    }
  }

  lemma GrowFree(trace: seq<Request>, s: EngineState, i: nat, tokens: nat)
    requires Defined(trace, s) && Distinct(s.pool.free) && Distinct(s.running) && i < |s.running|
    requires 0 <= Need(s, s.running[i], s.prog[s.running[i]].computed + tokens) <= |s.pool.free|
    ensures var t, x := GrowNext(trace, s, i, tokens), s.running[i];
            && t.running == s.running
            && |t.pool.free| == |s.pool.free| - Need(s, x, s.prog[x].computed + tokens)
            && (forall y :: y in s.prog && y != x ==> y in t.prog && t.prog[y] == s.prog[y])
  {
    var x := s.running[i];
    TakeKeys(s.pool, Need(s, x, s.prog[x].computed + tokens));
    hide Take;
  }

  lemma NextNeed(trace: seq<Request>, cfg: Config, r: Run)
    requires Planning(trace, cfg, r) && Unplanned(r)
    ensures var x := r.s.running[|r.plan|];
            && Defined(trace, r.s) && Distinct(r.s.pool.free) && Distinct(r.s.running) && x in r.s.prog
            && Need(r.s, x, r.s.prog[x].computed + NextTokens(trace, cfg, r)) >= 0
  {
    var x := r.s.running[|r.plan|];
    assert |r.s.prog[x].table| == CeilBlocks(r.s.prog[x].computed + Planned(0, r.plan, |r.plan|));
    QueuesApart(r.s);
    hide OwnKeys, Records, AllComplete, Held, Unshared, CacheInverse;
  }

  lemma PlanNextFree(trace: seq<Request>, cfg: Config, r: Run)
    requires Planning(trace, cfg, r) && Unplanned(r) && NextFits(trace, cfg, r)
    ensures var t, x := PlanNext(trace, cfg, r), r.s.running[|r.plan|];
            && Defined(trace, r.s) && Defined(trace, t.s) && t.s.running == r.s.running && x in r.s.prog
            && |t.s.pool.free| == |r.s.pool.free| - Need(r.s, x, r.s.prog[x].computed + NextTokens(trace, cfg, r))
            && (forall j :: |r.plan| < j < |r.s.running| ==> t.s.prog[r.s.running[j]] == r.s.prog[r.s.running[j]])
  {
    NextNeed(trace, cfg, r);
    PlanningDefined(trace, cfg, PlanNext(trace, cfg, r));
    hide Planning, Inv, NextTokens, AllComplete, Need;
    GrowFree(trace, r.s, |r.plan|, NextTokens(trace, cfg, r));
    hide GrowNext;
  }

  /** One request planned: its blocks are no longer free and no longer asked for. */
  lemma PlanNextDemand(trace: seq<Request>, cfg: Config, r: Run)
    requires Planning(trace, cfg, r) && Unplanned(r) && NextFits(trace, cfg, r)
    ensures var t := PlanNext(trace, cfg, r);
            && Defined(trace, r.s) && Defined(trace, t.s) && t.preempted == r.preempted
            && |t.plan| <= |t.s.running| && |r.plan| <= |r.s.running|
            && Demand(trace, t.s, |t.plan|, t.budget) - |t.s.pool.free|
               == Demand(trace, r.s, |r.plan|, r.budget) - |r.s.pool.free|
  {
    var t := PlanNext(trace, cfg, r);
    hide *;
    PlanNextFree(trace, cfg, r);
    PlanNextBudget(trace, cfg, r);
    PlanNextCounts(trace, cfg, r);
    PlanWithin(trace, cfg, t);
    PlanWithin(trace, cfg, r);
    DemandSame(trace, r.s, t.s, |t.plan|, t.budget);
    NextDemand(trace, cfg, r);
  }

  lemma NextDemand(trace: seq<Request>, cfg: Config, r: Run)
    requires Planning(trace, cfg, r) && Unplanned(r)
    ensures var x, n := r.s.running[|r.plan|], NextTokens(trace, cfg, r);
            && Defined(trace, r.s) && x in r.s.prog
            && Demand(trace, r.s, |r.plan|, r.budget)
               == Need(r.s, x, r.s.prog[x].computed + n) + Demand(trace, r.s, |r.plan| + 1, r.budget - n)
  {
    PlanningDefined(trace, cfg, r);
    hide Planning, Inv, CeilBlocks, Defined;
  }

  lemma ShortDemand(trace: seq<Request>, cfg: Config, r: Run)
    requires Planning(trace, cfg, r) && Unplanned(r) && !NextFits(trace, cfg, r)
    ensures Defined(trace, r.s) && |r.plan| <= |r.s.running|
    ensures Demand(trace, r.s, |r.plan|, r.budget) > |r.s.pool.free|
  {
    assert Inv(trace, cfg, r.s, 0, r.plan);
    DemandPositive(trace, cfg, r.s, r.plan, |r.plan| + 1, r.budget - NextTokens(trace, cfg, r));
    PlanningDefined(trace, cfg, r);
    hide Planning, Inv, CeilBlocks, Defined;
  }

  /** The running requests are preempted exactly if they ask for more blocks than are free. */
  lemma {:induction false} RunLoopDemand(trace: seq<Request>, cfg: Config, r: Run)
    requires Planning(trace, cfg, r)
    ensures Defined(trace, r.s) && |r.plan| <= |r.s.running|
    ensures RunLoop(trace, cfg, r).preempted
            <==> r.preempted || Demand(trace, r.s, |r.plan|, r.budget) > |r.s.pool.free|
    decreases |r.s.running| - |r.plan|
  {
    PlanWithin(trace, cfg, r);
    PlanningDefined(trace, cfg, r);
    RunLoopSteps(trace, cfg, r);
    hide Planning, RunLoop, PlanNext, Evict, Order, Defined, NextFits, LoopKept, NextTokens;
    if !Unplanned(r) {
    } else if NextFits(trace, cfg, r) {
      hide Demand;
      PlanNextDemand(trace, cfg, r);
      RunLoopDemand(trace, cfg, PlanNext(trace, cfg, r));
    } else {
      ShortDemand(trace, cfg, r);
      EvictFlag(trace, cfg, r);
    }
  }

  lemma EvictFlag(trace: seq<Request>, cfg: Config, r: Run)
    requires Planning(trace, cfg, r) && Unplanned(r)
    ensures RunLoop(trace, cfg, Evict(trace, cfg, r)).preempted
  {
    hide Planning, RunLoop, Evict, Order, PlannedKept, AllKept;
    RunLoopKeeps(trace, cfg, Evict(trace, cfg, r));
  }

  /** A step that preempts admits nobody. */
  lemma PreemptsMeans(trace: seq<Request>, cfg: Config, s: EngineState)
    requires Usable(trace, cfg) && Inv(trace, cfg, s, 0, [])
    ensures Planning(trace, cfg, Run(s, [], cfg.tokenBudget, false))
    ensures var t := RunLoop(trace, cfg, Run(s, [], cfg.tokenBudget, false));
            && (Preempts(s, Schedule(trace, cfg, s).s) <==> t.preempted)
            && (t.preempted ==> Schedule(trace, cfg, s).s.admitted == s.admitted)
  {
    var r := Run(s, [], cfg.tokenBudget, false);
    EmptyPlan(trace, cfg, s);
    RunLoopPreempts(trace, cfg, r);
    RunLoopOutputs(trace, cfg, r);
    RunLoopKeeps(trace, cfg, r);
    var t := RunLoop(trace, cfg, r);
    hide Inv, AllComplete, RunLoop, AdmitLoop, SameOutputs, Planning, NoFewer;
    if !t.preempted { AdmitLoopOutputs(trace, cfg, t); }
  }

  /**
   A step preempts exactly if its running requests, sharing the budget in order, ask for more blocks than are
   free; then the queue is not looked at.
   */
  lemma PreemptsIffShort(trace: seq<Request>, cfg: Config, s: EngineState)
    requires Usable(trace, cfg) && Inv(trace, cfg, s, 0, [])
    ensures Defined(trace, s)
    ensures Preempts(s, Schedule(trace, cfg, s).s) <==> Demand(trace, s, 0, cfg.tokenBudget) > |s.pool.free|
    ensures Preempts(s, Schedule(trace, cfg, s).s) ==> Schedule(trace, cfg, s).s.admitted == s.admitted
  {
    PreemptsMeans(trace, cfg, s);
    hide *;
    RunLoopDemand(trace, cfg, Run(s, [], cfg.tokenBudget, false));
  }
}
