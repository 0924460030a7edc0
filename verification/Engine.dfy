/**
 The simulated engine as the source has it: an object whose queues, pool and cache are updated in place
 (routing_sim.py, class Engine). Each method is proved to do what the functions on engine states say.
 The engine's fields of the SimRequest objects are the map `prog`.
 */
module EngineObject {
  import opened Common
  import opened BlockPool
  import opened Scheduling
  import opened ScheduleSteps
  import opened ScheduleLoops
  import opened ScheduleTheorems
  import opened FinishSteps
  import opened FinishLoops
  import opened DispatchOrder

  class Engine {
    const trace: seq<Request>
    const cfg: Config
    var free: seq<nat>
    var blockKey: seq<Option<Key>>
    var ref: seq<int>
    var cached: map<Key, nat>
    var waiting: seq<nat>
    var running: seq<nat>
    var prog: map<nat, Progress>
    ghost var dispatched: seq<nat>
    ghost var admitted: seq<nat>
    ghost var firsts: seq<nat>

    ghost function PoolState(): Pool
      reads this
    {
      Pool(free, blockKey, ref, cached)
    }

    ghost function State(): EngineState
      reads this
    {
      EngineState(PoolState(), waiting, running, prog, dispatched, admitted, firsts)
    }

    /** The engine invariant with `plan` in flight. */
    ghost predicate Valid(plan: seq<Chunk>)
      reads this
    {
      Usable(trace, cfg) && Inv(trace, cfg, State(), 0, plan)
    }

    constructor (trace: seq<Request>, cfg: Config)
      requires Usable(trace, cfg)
      ensures this.trace == trace && this.cfg == cfg && State() == NewEngine(cfg) && Valid([])
    {
      this.trace, this.cfg := trace, cfg;
      var pool := BlockPool.Fresh(cfg.numBlocks);
      free, blockKey, ref, cached := pool.free, pool.key, pool.ref, pool.cached;
      waiting, running, prog := [], [], map[];
      dispatched, admitted, firsts := [], [], [];
    }

    // -------------------------------------------------------------------------------------
    // Block pool

    method PopFree() returns (b: nat)
      requires Shape(PoolState()) && free != []
      modifies this`free, this`blockKey, this`cached
      ensures (PoolState(), b) == BlockPool.PopFree(old(PoolState()))
    {
      b := free[0];
      assert b in free;
      free := free[1..];
      if blockKey[b].Some? {
        cached := cached - {blockKey[b].value};
        blockKey := blockKey[b := None];
      }
    }

    method Release(table: seq<nat>)
      requires Shape(PoolState()) && Below(table, |ref|)
      modifies this`free, this`ref
      ensures PoolState() == BlockPool.Release(old(PoolState()), table)
    {
      var n: nat := |table|;
      assert table[..n] == table;
      while n > 0
        invariant n <= |table| && Shape(PoolState()) && |ref| == old(|ref|)
        invariant Below(table[..n], |ref|)
        invariant BlockPool.Release(PoolState(), table[..n]) == BlockPool.Release(old(PoolState()), table)
      {
        n := n - 1;
        var b := table[n];
        ghost var p := PoolState();
        ref := ref[b := ref[b] - 1];
        if ref[b] == 0 { free := free + [b]; }
        assert PoolState() == Unref(p, b);
        assert table[..n + 1][..n] == table[..n];
      }
    }

    /** Length of the leading run of cached keys; the router's exact index asks for it too. */
    method HitBlocks(keys: seq<Key>) returns (n: nat)
      ensures n == BlockPool.HitBlocks(cached, keys)
    {
      n := 0;
      while n < |keys| && keys[n] in cached
        invariant n <= |keys| && n + BlockPool.HitBlocks(cached, keys[n..]) == BlockPool.HitBlocks(cached, keys)
      {
        n := n + 1;
      }
    }

    /** The allocation loop of `_grow`. */
    method TakeBlocks(n: nat) returns (blocks: seq<nat>)
      requires Shape(PoolState()) && n <= |free|
      modifies this`free, this`blockKey, this`cached, this`ref
      ensures (PoolState(), blocks) == Take(old(PoolState()), n)
    {
      hide Take, TakeOne, Shape;
      ghost var start := PoolState();
      blocks := [];
      var k := 0;
      while k < n
        invariant k <= n && Shape(PoolState()) && |free| == |start.free| - k
        invariant Take(start, n).0 == Take(PoolState(), n - k).0
        invariant Take(start, n).1 == blocks + Take(PoolState(), n - k).1
      {
        ghost var p := PoolState();
        var b := PopOne();
        TakeStep(p, n - k);
        blocks := blocks + [b];
        k := k + 1;
      }
      TakeNone(PoolState());
      assert blocks + [] == blocks;
    }

    /** One round of the allocation loop: `_pop_free`, then one reference. */
    method PopOne() returns (b: nat)
      requires Shape(PoolState()) && free != []
      modifies this`free, this`blockKey, this`cached, this`ref
      ensures b == old(free)[0] && PoolState() == TakeOne(old(PoolState()))
    {
      ghost var p := PoolState();
      b := PopFree();
      assert b in p.free;
      ref := ref[b := 1];
    }

    /** `_grow`: false, and nothing changed, when the pool is too small. */
    method Grow(r: nat, tokens: nat) returns (ok: bool)
      requires Defined(trace, State()) && r in prog
      modifies this`free, this`blockKey, this`cached, this`ref, this`prog
      ensures ok <==> Need(old(State()), r, tokens) <= |old(free)|
      ensures ok ==> State() == Scheduling.Grow(trace, old(State()), r, tokens)
      ensures !ok ==> State() == old(State())
    {
      var need := CeilBlocks(tokens) - |prog[r].table|;
      if need > |free| { return false; }
      var blocks := TakeBlocks(Max(0, need));
      prog := prog[r := prog[r].(table := prog[r].table + blocks)];
      ok := true;
    }

    method CacheFull(r: nat)
      requires Defined(trace, State()) && r in prog && prog[r].computed / BLOCK <= |prog[r].table|
      modifies this`blockKey, this`cached
      ensures PoolState() == FinishSteps.CacheFull(trace, old(PoolState()), r, prog[r].table, 0, prog[r].computed / BLOCK)
    {
      var n := prog[r].computed / BLOCK;
      for i := 0 to n
        invariant Shape(PoolState()) && |ref| == old(|ref|) && |blockKey| == old(|blockKey|)
        invariant FinishSteps.CacheFull(trace, PoolState(), r, prog[r].table, i, n) ==
                  FinishSteps.CacheFull(trace, old(PoolState()), r, prog[r].table, 0, n)
      {
        var b := prog[r].table[i];
        if blockKey[b].None? {
          var k := KeyOf(trace, r, i);
          if k !in cached {
            cached := cached[k := b];
            blockKey := blockKey[b := Some(k)];
          }
        }
      }
    }

    // -------------------------------------------------------------------------------------
    // Scheduler

    /** The router's append to the queue. */
    method Submit(r: nat, ghost plan: seq<Chunk>)
      requires Valid(plan) && r < |trace| && r !in prog
      modifies this
      ensures Valid(plan) && State() == DispatchOrder.Submit(old(State()), r)
    {
      SubmitInv(trace, cfg, State(), 0, plan, r);
      waiting := waiting + [r];
      prog := prog[r := NotStarted];
      dispatched := dispatched + [r];
    }

    /** `running.pop()`, release, and `waiting.appendleft`. */
    method PreemptTail() returns (victim: nat)
      requires Defined(trace, State()) && running != []
      modifies this
      ensures State() == Scheduling.PreemptTail(trace, old(State())) && victim == old(running)[old(|running|) - 1]
    {
      var n := |running| - 1;
      victim := running[n];
      running := running[..n];
      Release(prog[victim].table);
      prog := prog[victim := prog[victim].(computed := 0, table := [], preempted := prog[victim].preempted + 1)];
      waiting := [victim] + waiting;
    }

    /** `_grow` for the request being planned. */
    method TryGrow(r: nat, tokens: nat, ghost at: Run) returns (grown: bool)
      requires Planning(trace, cfg, at) && Unplanned(at) && at.s == State() && AtRequest(trace, cfg, at, r, tokens)
      modifies this
      ensures grown <==> NextFits(trace, cfg, at)
      ensures grown ==> State() == PlanNext(trace, cfg, at).s && PlanNext(trace, cfg, at).preempted == at.preempted
                        && ScheduleLoops.MakeRoom(trace, cfg, at) == PlanNext(trace, cfg, at)
      ensures !grown ==> State() == at.s
    {
      hide Planning, NextTokens, NextFits, PlanNext, ScheduleLoops.MakeRoom, Scheduling.Grow, Need;
      NextDefined(trace, cfg, at);
      grown := Grow(r, prog[r].computed + tokens);
      if grown { NextGrows(trace, cfg, at); }
    }

    /** Preempting the tail while `r` waits for room; `gone` when the tail is `r` itself. */
    method EvictOne(r: nat, ghost at: Run) returns (gone: bool)
      requires Planning(trace, cfg, at) && Unplanned(at) && at.s == State() && !NextFits(trace, cfg, at)
      requires r == running[|at.plan|]
      modifies this
      ensures var t := Evict(trace, cfg, at);
              && State() == t.s
              && (gone ==> ScheduleLoops.MakeRoom(trace, cfg, at) == t)
              && (!gone ==> Unplanned(t) && ScheduleLoops.MakeRoom(trace, cfg, at) == ScheduleLoops.MakeRoom(trace, cfg, t)
                            && AtRequest(trace, cfg, t, r, NextTokens(trace, cfg, at)))
    {
      NextEvicts(trace, cfg, at);
      PlanPositions(trace, cfg, at);
      hide Planning, NextTokens, NextFits, Evict, ScheduleLoops.MakeRoom, Scheduling.PreemptTail, AtRequest, Order,
           Distinct;
      var victim := PreemptTail();
      gone := victim == r;
    }

    /**
     The inner loop of schedule: preempt from the tail until the request being planned fits, or has itself gone.
     */
    method MakeRoom(r: nat, tokens: nat, ghost cur: Run) returns (grown: bool, preempted: bool)
      requires Planning(trace, cfg, cur) && Unplanned(cur) && cur.s == State() && AtRequest(trace, cfg, cur, r, tokens)
      modifies this
      ensures var t := ScheduleLoops.MakeRoom(trace, cfg, cur);
              && State() == t.s && (grown <==> |t.plan| > |cur.plan|) && t.preempted == (cur.preempted || preempted)
    {
      hide Planning, NextTokens, NextFits, PlanNext, Evict, ScheduleLoops.MakeRoom;
      ghost var goal := ScheduleLoops.MakeRoom(trace, cfg, cur);
      ghost var at := cur;
      var gone := false;
      preempted := false;
      grown := TryGrow(r, tokens, at);
      while !grown && !gone
        invariant gone ==> State() == goal.s && !grown && |goal.plan| == |cur.plan| && goal.preempted && preempted
        invariant !gone ==> Planning(trace, cfg, at) && Unplanned(at) && at.plan == cur.plan
        invariant !gone ==> AtRequest(trace, cfg, at, r, tokens) && ScheduleLoops.MakeRoom(trace, cfg, at) == goal
        invariant !gone ==> (grown <==> NextFits(trace, cfg, at)) && at.preempted == (cur.preempted || preempted)
        invariant grown ==> State() == PlanNext(trace, cfg, at).s && goal == PlanNext(trace, cfg, at)
        invariant grown ==> goal.preempted == at.preempted
        invariant !grown && !gone ==> State() == at.s
        decreases !gone, |at.s.running|
      {
        gone := EvictOne(r, at);
        preempted := true;
        if !gone {
          at := Evict(trace, cfg, at);
          grown := TryGrow(r, tokens, at);
        }
      }
    }

    /** One round of the running-first loop: the chunk of running position `i`, or no room for it. */
    method PlanOne(i: nat, budget: nat, ghost cur: Run) returns (c: Chunk, grown: bool, more: bool)
      requires Planning(trace, cfg, cur) && Unplanned(cur) && cur.s == State() && i == |cur.plan| && budget == cur.budget
      modifies this
      ensures c.tokens <= budget
      ensures ScheduleLoops.MakeRoom(trace, cfg, cur) ==
              Run(State(), if grown then cur.plan + [c] else cur.plan, if grown then cur.budget - c.tokens else cur.budget,
                  cur.preempted || more)
    {
      hide Planning, NextTokens, NextFits, ScheduleLoops.MakeRoom, AtRequest, Shape, Below;
      var r := running[i];
      NextDefined(trace, cfg, cur);
      MakeRoomPlan(trace, cfg, cur);
      var tokens := NewTokens(r, budget);
      NextIsNew(trace, cfg, cur, tokens);
      grown, more := MakeRoom(r, tokens, cur);
      c := Chunk(r, tokens);
    }

    /** The running-first loop of schedule. */
    method PlanRunning() returns (plan: seq<Chunk>, budget: nat, preempted: bool)
      requires Valid([])
      modifies this
      ensures Planning(trace, cfg, Start(cfg, old(State())))
      ensures Run(State(), plan, budget, preempted) == RunLoop(trace, cfg, Start(cfg, old(State())))
    {
      EmptyPlan(trace, cfg, State());
      ghost var goal := RunLoop(trace, cfg, Start(cfg, State()));
      plan, budget, preempted := [], cfg.tokenBudget, false;
      var stop := false;
      while !stop && |plan| < |running| && budget > 0
        invariant stop ==> Run(State(), plan, budget, preempted) == goal
        invariant !stop ==> Planning(trace, cfg, Run(State(), plan, budget, preempted))
        invariant !stop ==> RunLoop(trace, cfg, Run(State(), plan, budget, preempted)) == goal
        decreases !stop, |running| - |plan|
      {
        hide Inv, AllComplete, Planning, ScheduleLoops.MakeRoom;
        ghost var cur := Run(State(), plan, budget, preempted);
        ghost var t := ScheduleLoops.MakeRoom(trace, cfg, cur);
        var c, grown, more := PlanOne(|plan|, budget, cur);
        preempted := preempted || more;
        if grown {
          plan := plan + [c];
          budget := budget - c.tokens;
        } else {
          stop := true;
        }
        assert Run(State(), plan, budget, preempted) == t;
      }
    }

    /** Taking over the cached blocks of a prefix: no longer free, one more reference each. */
    method AdoptBlocks(blocks: seq<nat>)
      requires Shape(PoolState()) && Below(blocks, |ref|) && Counted(PoolState())
      modifies this`free, this`ref
      ensures PoolState() == Adopt(old(PoolState()), blocks)
    {
      assert blocks[0..] == blocks;
      for i := 0 to |blocks|
        invariant Shape(PoolState()) && Counted(PoolState()) && |ref| == old(|ref|)
        invariant Adopt(PoolState(), blocks[i..]) == Adopt(old(PoolState()), blocks)
      {
        var b := blocks[i];
        ghost var p := PoolState();
        assert p.ref[b] == 0 ==> b in p.free;
        if ref[b] == 0 { free := RemoveAt(free, IndexOf(free, b)); }
        ref := ref[b := ref[b] + 1];
        assert PoolState() == Adopt1(p, b);
        assert blocks[i..][0] == b && blocks[i..][1..] == blocks[i + 1..];
      }
    }

    /** The cached blocks of the leading keys, and how many of them are unreferenced. */
    method CachedBlocks(keys: seq<Key>, hit: nat) returns (blocks: seq<nat>, evictable: nat)
      requires CacheInverse(PoolState()) && Shape(PoolState())
      requires hit <= |keys| && forall i :: 0 <= i < hit ==> keys[i] in cached
      ensures |blocks| == hit && forall i :: 0 <= i < hit ==> blocks[i] == cached[keys[i]]
      ensures Below(blocks, |ref|) && evictable == Evictable(PoolState(), blocks)
    {
      blocks, evictable := [], 0;
      for j := 0 to hit
        invariant |blocks| == j && forall i :: 0 <= i < j ==> blocks[i] == cached[keys[i]]
        invariant Below(blocks, |ref|) && evictable == Evictable(PoolState(), blocks)
      {
        var b := cached[keys[j]];
        EvictableAppend(PoolState(), blocks, b);
        blocks := blocks + [b];
        if ref[b] == 0 { evictable := evictable + 1; }
      }
    }

    /** What schedule finds out about the head of the queue; nothing changes. */
    method Look(budget: nat) returns (o: Offer)
      requires Defined(trace, State()) && waiting != [] && CacheInverse(PoolState())
      requires trace[waiting[0]].inputLen + prog[waiting[0]].generated >= 1
      ensures o == Consider(trace, State(), budget)
    {
      hide Shape, CacheInverse, Below, Evictable, CeilBlocks, BlockPool.HitBlocks;
      var r := waiting[0];
      var length := trace[r].inputLen + prog[r].generated;
      var keys := Keys(trace, r, length / BLOCK);
      var run := HitBlocks(keys);
      var hit: nat := Min(run, (length - 1) / BLOCK);
      var tokens: nat := Min(length - hit * BLOCK, budget);
      var blocks, evictable := CachedBlocks(keys, hit);
      var need := CeilBlocks(hit * BLOCK + tokens) - hit;
      assert blocks == Consider(trace, State(), budget).blocks;
      o := Offer(blocks, tokens, need + evictable <= |free|);
    }

    /**
     Admission, first half: the cached prefix becomes the request's table. The source moves the request between
     the queues only after growing its table; `_grow` does not look at the queues.
     */
    method TakeOver(blocks: seq<nat>)
      requires Defined(trace, State()) && waiting != [] && Below(blocks, |ref|) && Counted(PoolState())
      modifies this
      ensures State() == AdoptHits(trace, old(State()), blocks)
    {
      hide Shape, Below, Counted, Adopt;
      var r := waiting[0];
      AdoptBlocks(blocks);
      var p := prog[r];
      var hit := |blocks| * BLOCK;
      if p.engineHit.None? { admitted := admitted + [r]; }
      prog := prog[r := p.(table := blocks, computed := hit,
                           engineHit := if p.engineHit.None? then Some(hit) else p.engineHit)];
      waiting := waiting[1..];
      running := running + [r];
    }

    /** Admission, second half: blocks for the first chunk. `_grow`'s result is not looked at. */
    method GrowAt(i: nat, tokens: nat)
      requires Defined(trace, State()) && i < |running|
      requires Need(State(), running[i], prog[running[i]].computed + tokens) <= |free|
      modifies this
      ensures State() == GrowNext(trace, old(State()), i, tokens)
    {
      hide Take, Shape, Below;
      var ok := Grow(running[i], prog[running[i]].computed + tokens);
    }

    /** Admission of the head, given what schedule found out about it. */
    method AdmitFitting(o: Offer, ghost cur: Run)
      requires Admitting(trace, cfg, cur) && Open(cfg, cur) && cur.s == State()
      requires o == HeadOffer(trace, cfg, cur) && o.fits
      modifies this
      ensures State() == AdmitHead(trace, cfg, cur).s
    {
      AdoptedIs(trace, cfg, cur);
      AdmitHeadRoom(trace, cfg, cur);
      hide Inv, AllComplete, Admitting, Planning, HeadOffer, AdmitHead, Adopted, AdoptHits, GrowNext, Below, Shape,
           Counted;
      var last := |running|;
      TakeOver(o.blocks);
      GrowAt(last, o.tokens);
    }

    /** One round of the admission loop; false when the head of the queue does not fit. */
    method AdmitOne(budget: nat, ghost cur: Run) returns (c: Chunk, fits: bool)
      requires Admitting(trace, cfg, cur) && Open(cfg, cur) && cur.s == State() && budget == cur.budget
      modifies this
      ensures c == Chunk(cur.s.waiting[0], HeadOffer(trace, cfg, cur).tokens)
      ensures fits <==> HeadOffer(trace, cfg, cur).fits
      ensures State() == if fits then AdmitHead(trace, cfg, cur).s else cur.s
    {
      AdmittingDefined(trace, cfg, cur);
      hide Inv, AllComplete, Admitting, Planning, Consider, AdmitHead, Below, Shape, CacheInverse;
      var o := Look(budget);
      c, fits := Chunk(waiting[0], o.tokens), o.fits;
      if fits { AdmitFitting(o, cur); }
    }

    /** The admission loop of schedule. */
    method AdmitWaiting(plan0: seq<Chunk>, budget0: nat, ghost start: Run) returns (plan: seq<Chunk>, budget: nat)
      requires Admitting(trace, cfg, start) && start == Run(State(), plan0, budget0, false)
      modifies this
      ensures Run(State(), plan, budget, false) == AdmitLoop(trace, cfg, start)
    {
      hide Inv, AllComplete, Planning, Admitting, HeadOffer, AdmitHead;
      ghost var goal := AdmitLoop(trace, cfg, start);
      plan, budget := plan0, budget0;
      var stop := false;
      while !stop && waiting != [] && budget > 0 && |running| < cfg.maxSeqs
        invariant stop ==> Run(State(), plan, budget, false) == goal
        invariant !stop ==> Admitting(trace, cfg, Run(State(), plan, budget, false))
        invariant !stop ==> AdmitLoop(trace, cfg, Run(State(), plan, budget, false)) == goal
        decreases !stop, |waiting|
      {
        ghost var cur := Run(State(), plan, budget, false);
        var c, fits := AdmitOne(budget, cur);
        if fits {
          AdmitHeadRest(trace, cfg, cur);
          plan := plan + [c];
          budget := budget - c.tokens;
          assert Run(State(), plan, budget, false) == AdmitHead(trace, cfg, cur);
        } else {
          stop := true;
        }
      }
    }

    /** schedule: the plan of one step. */
    method Schedule() returns (plan: seq<Chunk>)
      requires Valid([])
      modifies this
      ensures var t := ScheduleLoops.Schedule(trace, cfg, old(State())); State() == t.s && plan == t.plan
      ensures Valid(plan)
    {
      ghost var s := State();
      var budget, preempted;
      plan, budget, preempted := PlanRunning();
      hide Inv, RunLoop, AdmitLoop, Planning, Admitting;
      if !preempted {
        plan, budget := AdmitWaiting(plan, budget, RunLoop(trace, cfg, Start(cfg, s)));
      }
    }

    /** The tokens of a chunk are computed; true when that completes the request's current sequence. */
    method Book(c: Chunk) returns (completes: bool)
      requires Defined(trace, State()) && c.rid in prog
      requires (prog[c.rid].computed + c.tokens) / BLOCK <= |prog[c.rid].table|
      modifies this`prog, this`blockKey, this`cached
      ensures State() == FinishSteps.Book(trace, old(State()), c)
      ensures completes <==> old(prog)[c.rid].computed + c.tokens >= Length(trace, old(State()), c.rid)
    {
      hide Shape, Below, FinishSteps.CacheFull;
      var r := c.rid;
      var p := prog[r];
      completes := p.computed + c.tokens >= trace[r].inputLen + p.generated;
      prog := prog[r := p.(computed := p.computed + c.tokens, generated := if completes then p.generated + 1 else p.generated)];
      CacheFull(r);
    }

    /** `running.remove` and release of a finished request. */
    method Leave(r: nat, now: int)
      requires Defined(trace, State()) && r in running
      modifies this
      ensures State() == FinishSteps.Leave(trace, old(State()), r, now)
    {
      hide Shape, BlockPool.Release;
      assert r in prog;
      running := RemoveAt(running, IndexOf(running, r));
      Release(prog[r].table);
      prog := prog[r := prog[r].(doneAt := Some(now), table := [])];
    }

    /** One round of finish_step's loop. */
    method FinishOne(c: Chunk, now: int) returns (calls: seq<Callback>)
      requires Defined(trace, State()) && c.rid in running && c.rid in prog
      requires (prog[c.rid].computed + c.tokens) / BLOCK <= |prog[c.rid].table|
      modifies this
      ensures Outcome(State(), calls) == FinishSteps.FinishOne(trace, old(State()), c, now)
    {
      hide FinishSteps.Book, FinishSteps.Leave, Shape, Below;
      calls := [];
      var completes := Book(c);
      if completes {
        MarkedDefined(trace, State(), c.rid, now);
        if prog[c.rid].firstAt.None? {
          prog := prog[c.rid := prog[c.rid].(firstAt := Some(now))];
          firsts := firsts + [c.rid];
          calls := [First(c.rid)];
        }
        if prog[c.rid].generated >= trace[c.rid].outputLen {
          Leave(c.rid, now);
          calls := calls + [Done(c.rid)];
        }
      }
    }

    /** The last loop of schedule: what the cost model is told about the step. */
    method StepBatch(plan: seq<Chunk>) returns (b: Batch)
      requires Valid(plan)
      ensures PlanKnown(trace, State(), plan) && b == BatchOf(trace, State(), plan)
    {
      PlanIsKnown(trace, cfg, State(), plan);
      hide Inv, Shape;
      var chunks: seq<(nat, nat)>, decodeCtx: nat, decodes: nat := [], 0, 0;
      assert plan[..0] == [];
      for k := 0 to |plan|
        invariant PlanKnown(trace, State(), plan[..k])
        invariant Batch(chunks, decodeCtx, decodes) == BatchOf(trace, State(), plan[..k])
      {
        assert plan[..k + 1][..k] == plan[..k];
        var p := prog[plan[k].rid];
        var length := trace[plan[k].rid].inputLen + p.generated;
        if p.generated > 0 && length - p.computed == 1 {
          decodeCtx := decodeCtx + length;
          decodes := decodes + 1;
        } else {
          chunks := chunks + [(plan[k].tokens, p.computed)];
        }
      }
      assert plan[..|plan|] == plan;
      b := Batch(chunks, decodeCtx, decodes);
    }

    /** finish_step: the calls back to the router, in order. */
    method FinishStep(plan: seq<Chunk>, now: int) returns (calls: seq<Callback>)
      requires Valid(plan)
      modifies this
      ensures Outcome(State(), calls) == FinishLoops.FinishStep(trace, cfg, old(State()), plan, now)
      ensures Valid([])
    {
      hide Inv, Usable, Served, NextOff, Leaves, Completes, FinishSteps.FinishOne, Pending;
      ghost var goal := FinishLoop(trace, cfg, State(), 0, plan, now);
      ghost var off := 0;
      calls := [];
      var k := 0;
      while k < |plan|
        invariant k <= |plan| && Usable(trace, cfg) && Inv(trace, cfg, State(), off, plan[k..])
        invariant FinishLoop(trace, cfg, State(), off, plan[k..], now).s == goal.s
        invariant calls + FinishLoop(trace, cfg, State(), off, plan[k..], now).calls == goal.calls
      {
        ghost var s := State();
        PendingNow(trace, cfg, s, off, plan[k..]);
        FinishLoopStep(trace, cfg, s, off, plan[k..], now);
        ServedIsFinishOne(trace, cfg, s, off, plan[k..], now);
        var more := FinishOne(plan[k], now);
        calls := calls + more;
        off := NextOff(trace, cfg, s, off, plan[k..]);
        assert plan[k..][1..] == plan[k + 1..];
        k := k + 1;
      }
    }

    /** min(req.length - req.computed, budget) */
    function NewTokens(r: nat, budget: nat): int
      requires Defined(trace, State()) && r in prog
      reads this
    {
      Min(trace[r].inputLen + prog[r].generated - prog[r].computed, budget)
    }
  }

  lemma TakeNone(p: Pool)
    requires Shape(p)
    ensures Take(p, 0) == (p, [])
  {}

  lemma TakeStep(p: Pool, n: nat)
    requires Shape(p) && 0 < n <= |p.free|
    ensures Take(p, n) == (Take(TakeOne(p), n - 1).0, [p.free[0]] + Take(TakeOne(p), n - 1).1)
    ensures Shape(TakeOne(p)) && |TakeOne(p).free| == |p.free| - 1
  {
  }

  lemma {:induction false} EvictableAppend(p: Pool, bs: seq<nat>, b: nat)
    requires Below(bs, |p.ref|) && b < |p.ref|
    ensures Below(bs + [b], |p.ref|)
    ensures Evictable(p, bs + [b]) == Evictable(p, bs) + (if p.ref[b] == 0 then 1 else 0)
  {
    if bs != [] {
      assert (bs + [b])[1..] == bs[1..] + [b];
      EvictableAppend(p, bs[1..], b);
    }
  }

  lemma AdmittingDefined(trace: seq<Request>, cfg: Config, r: Run)
    requires Admitting(trace, cfg, r) && Open(cfg, r)
    ensures Defined(trace, r.s) && CacheInverse(r.s.pool) && Length(trace, r.s, r.s.waiting[0]) >= 1
  {
  }

  lemma AdoptedIs(trace: seq<Request>, cfg: Config, r: Run)
    requires Admitting(trace, cfg, r) && Open(cfg, r) && HeadOffer(trace, cfg, r).fits
    ensures Counted(r.s.pool) && Defined(trace, r.s) && HeadOffer(trace, cfg, r).tokens <= r.budget
    ensures Below(HeadOffer(trace, cfg, r).blocks, |r.s.pool.ref|)
    ensures Adopted(trace, cfg, r) == AdoptHits(trace, r.s, HeadOffer(trace, cfg, r).blocks)
  {
    AdmitGrows(trace, cfg, r.s, r.plan, r.budget);
  }

  lemma AdmitHeadRoom(trace: seq<Request>, cfg: Config, r: Run)
    requires Admitting(trace, cfg, r) && Open(cfg, r) && HeadOffer(trace, cfg, r).fits
    ensures var s := Adopted(trace, cfg, r);
            && Defined(trace, s) && |r.plan| == |r.s.running| < |s.running| && s.running[|r.plan|] in s.prog
            && Need(s, s.running[|r.plan|], s.prog[s.running[|r.plan|]].computed + HeadOffer(trace, cfg, r).tokens)
                 <= |s.pool.free|
    ensures AdmitHead(trace, cfg, r).s == GrowNext(trace, Adopted(trace, cfg, r), |r.plan|, HeadOffer(trace, cfg, r).tokens)
  {
    hide Take, GrowNext, Adopted, HeadOffer, OwnKeys, Owned, Records, AllComplete;
  }

  lemma AdmitHeadRest(trace: seq<Request>, cfg: Config, r: Run)
    requires Admitting(trace, cfg, r) && Open(cfg, r) && HeadOffer(trace, cfg, r).fits
    ensures HeadOffer(trace, cfg, r).tokens <= r.budget
    ensures AdmitHead(trace, cfg, r) ==
            Run(AdmitHead(trace, cfg, r).s, r.plan + [Chunk(r.s.waiting[0], HeadOffer(trace, cfg, r).tokens)],
                r.budget - HeadOffer(trace, cfg, r).tokens, r.preempted)
  {
    hide Take, GrowNext, Adopted, Inv, AllComplete;
  }

  lemma PendingNow(trace: seq<Request>, cfg: Config, s: EngineState, off: nat, plan: seq<Chunk>)
    requires Usable(trace, cfg) && Inv(trace, cfg, s, off, plan) && plan != []
    ensures Pending(trace, cfg, s, off, plan)
  {
    hide Inv, Usable;
  }

  lemma ServedIsFinishOne(trace: seq<Request>, cfg: Config, s: EngineState, off: nat, plan: seq<Chunk>, now: int)
    requires Pending(trace, cfg, s, off, plan)
    ensures var c := plan[0];
            && Defined(trace, s) && c.rid in s.running && c.rid in s.prog
            && (s.prog[c.rid].computed + c.tokens) / BLOCK <= |s.prog[c.rid].table|
            && Served(trace, cfg, s, off, plan, now) == FinishSteps.FinishOne(trace, s, c, now)
  {
    PendingChunk(trace, cfg, s, off, plan);
  }

  function Start(cfg: Config, s: EngineState): Run {
    Run(s, [], cfg.tokenBudget, false)
  }

  lemma NextIsNew(trace: seq<Request>, cfg: Config, a: Run, tokens: int)
    requires Planning(trace, cfg, a) && Unplanned(a)
    requires Defined(trace, a.s) && a.s.running[|a.plan|] in a.s.prog
    requires var r := a.s.running[|a.plan|];
             tokens == Min(trace[r].inputLen + a.s.prog[r].generated - a.s.prog[r].computed, a.budget)
    ensures 1 <= tokens <= a.budget && AtRequest(trace, cfg, a, a.s.running[|a.plan|], tokens)
  {
    hide Inv, Planning;
    assert NextTokens(trace, cfg, a) == tokens;
  }

  /** Making room either adds the request's chunk to the plan or leaves plan and budget alone. */
  lemma {:induction false} MakeRoomPlan(trace: seq<Request>, cfg: Config, a: Run)
    requires Planning(trace, cfg, a) && Unplanned(a)
    ensures var t, tokens := ScheduleLoops.MakeRoom(trace, cfg, a), NextTokens(trace, cfg, a);
            if |t.plan| == |a.plan| then t.plan == a.plan && t.budget == a.budget
            else t.plan == a.plan + [Chunk(a.s.running[|a.plan|], tokens)] && t.budget == a.budget - tokens
    decreases |a.s.running|
  {
    if NextFits(trace, cfg, a) {
      NextGrows(trace, cfg, a);
      PlanNextBudget(trace, cfg, a);
    } else {
      NextEvicts(trace, cfg, a);
      EvictBudget(trace, cfg, a);
      hide Planning, NextTokens, NextFits, Evict, ScheduleLoops.MakeRoom;
      if |a.s.running| > |a.plan| + 1 { MakeRoomPlan(trace, cfg, Evict(trace, cfg, a)); }
    }
  }

  /** `r` is the next running request of `a` and `tokens` what it is to get. */
  ghost predicate AtRequest(trace: seq<Request>, cfg: Config, a: Run, r: nat, tokens: nat)
    requires Planning(trace, cfg, a) && Unplanned(a)
  {
    r == a.s.running[|a.plan|] && tokens == NextTokens(trace, cfg, a)
  }

  /** The next running request can be looked up, and fits when `_grow` says so. */
  lemma NextDefined(trace: seq<Request>, cfg: Config, a: Run)
    requires Planning(trace, cfg, a) && Unplanned(a)
    ensures var r, tokens := a.s.running[|a.plan|], NextTokens(trace, cfg, a);
            && Defined(trace, a.s) && r in a.s.prog && AtRequest(trace, cfg, a, r, tokens)
            && (NextFits(trace, cfg, a) <==> Need(a.s, r, a.s.prog[r].computed + tokens) <= |a.s.pool.free|)
  {
    PlanningDefined(trace, cfg, a);
    hide Inv, AllComplete, Planning, NextTokens;
  }

  lemma NextGrows(trace: seq<Request>, cfg: Config, a: Run)
    requires Planning(trace, cfg, a) && Unplanned(a) && NextFits(trace, cfg, a)
    ensures var r := a.s.running[|a.plan|];
            && Defined(trace, a.s) && r in a.s.prog
            && Need(a.s, r, a.s.prog[r].computed + NextTokens(trace, cfg, a)) <= |a.s.pool.free|
            && PlanNext(trace, cfg, a).s == Scheduling.Grow(trace, a.s, r, a.s.prog[r].computed + NextTokens(trace, cfg, a))
            && PlanNext(trace, cfg, a).preempted == a.preempted
            && ScheduleLoops.MakeRoom(trace, cfg, a) == PlanNext(trace, cfg, a)
  {
    hide Inv, AllComplete, Planning, Scheduling.Grow, NextTokens, Shape, Below;
    PlanningDefined(trace, cfg, a);
    assert NextFits(trace, cfg, a);
    MakesRoom(trace, cfg, a);
    hide ScheduleLoops.MakeRoom;
  }

  lemma MakesRoom(trace: seq<Request>, cfg: Config, a: Run)
    requires Planning(trace, cfg, a) && Unplanned(a) && NextFits(trace, cfg, a)
    ensures ScheduleLoops.MakeRoom(trace, cfg, a) == PlanNext(trace, cfg, a)
  {
    hide Planning, NextFits, PlanNext, NextTokens, Evict;
  }

  lemma NextEvicts(trace: seq<Request>, cfg: Config, a: Run)
    requires Planning(trace, cfg, a) && Unplanned(a) && !NextFits(trace, cfg, a)
    ensures Defined(trace, a.s) && Evict(trace, cfg, a).s == Scheduling.PreemptTail(trace, a.s)
    ensures a.s.running[|a.s.running| - 1] == a.s.running[|a.plan|] <==> |a.s.running| == |a.plan| + 1
    ensures |a.s.running| == |a.plan| + 1 ==> ScheduleLoops.MakeRoom(trace, cfg, a) == Evict(trace, cfg, a)
    ensures |a.s.running| > |a.plan| + 1 ==>
              && Unplanned(Evict(trace, cfg, a))
              && ScheduleLoops.MakeRoom(trace, cfg, a) == ScheduleLoops.MakeRoom(trace, cfg, Evict(trace, cfg, a))
              && AtRequest(trace, cfg, Evict(trace, cfg, a), a.s.running[|a.plan|], NextTokens(trace, cfg, a))
  {
    PlanningDefined(trace, cfg, a);
    PlanPositions(trace, cfg, a);
    EvictBudget(trace, cfg, a);
    if |a.s.running| > |a.plan| + 1 { EvictSame(trace, cfg, a); }
    hide Inv, AllComplete, Planning, Scheduling.PreemptTail, AtRequest, NextTokens, NextFits, Order;
  }

  lemma EvictSame(trace: seq<Request>, cfg: Config, a: Run)
    requires Planning(trace, cfg, a) && Unplanned(a) && |a.s.running| > |a.plan| + 1
    ensures Unplanned(Evict(trace, cfg, a))
    ensures AtRequest(trace, cfg, Evict(trace, cfg, a), a.s.running[|a.plan|], NextTokens(trace, cfg, a))
  {
    EvictBudget(trace, cfg, a);
    EvictOutputs(trace, cfg, a);
    PlanPositions(trace, cfg, a);
    hide Inv, AllComplete, Planning, Release;
    var r := a.s.running[|a.plan|];
    assert Order(a.s)[|a.plan|] == r;
    assert Order(a.s)[|a.s.running| - 1] == a.s.running[|a.s.running| - 1];
    assert Evict(trace, cfg, a).s.prog[r] == a.s.prog[r];
  }

  lemma PlanningDefined(trace: seq<Request>, cfg: Config, r: Run)
    requires Planning(trace, cfg, r)
    ensures Defined(trace, r.s)
    ensures forall i :: 0 <= i < |r.s.running| ==> r.s.running[i] in r.s.prog
  {
  }
}
