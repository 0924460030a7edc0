/** The baseline as a script: its recorded victims reproduce it exactly, and it meets the limits derived from it. */
module EvictionBaseline {
  import opened Common
  import opened Division
  import opened OrderedChoices
  import opened OutputGaps
  import opened EvictionModel
  import opened EvictionPool
  import opened EvictionRound
  import opened EvictionStep
  import opened EvictionIterate
  import opened EvictionReplay

  // ---------------------------------------------------------------------------------------
  // Stock choices recorded as a script

  /** The stock run's actions grow from `w.used`, and any script that begins with them leads to the same result. */
  ghost predicate Records<T>(used: seq<seq<nat>>, after: seq<seq<nat>>, stock: Result<T>, scripted: Result<T>,
                             script: seq<seq<nat>>) {
    used <= after && (after <= script ==> scripted == stock)
  }

  lemma AllocateRecords(w: World, capacity: nat, i: nat, count: int, script: seq<seq<nat>>)
    requires PoolInv(w, capacity) && i < |w.progress| && Allocate(w, i, count, None).Ok?
    ensures var r := Allocate(w, i, count, None);
            Records(w.used, r.value.used, r, Allocate(w, i, count, Some(script)), script)
  {
    hide Keep, Choices, LegalVictims, Mix, Holders;
    if 0 < count <= |w.free| {
      StockLegal(w, count);
      var victims := Keep(w.free[..count], CachedBlocks(w.identity));
      if w.used + [victims] <= script { assert script[|w.used|] == victims; }
    }
  }

  lemma GrowRecords(st: Round, capacity: nat, i: nat, n: int, need: int, prefill: bool, script: seq<seq<nat>>)
    requires PoolInv(st.world, capacity) && i < |st.world.progress| && Grow(st, i, n, need, prefill, None).Ok?
    ensures var r := Grow(st, i, n, need, prefill, None);
            Records(st.world.used, r.value.world.used, r, Grow(st, i, n, need, prefill, Some(script)), script)
  {
    hide Allocate, PoolInv;
    AllocateRecords(st.world, capacity, i, need, script);
  }

  lemma {:induction false} MakeRoomPool(st: Round, capacity: nat, i: nat, need: int)
    requires Listing(st.world) && PoolInv(st.world, capacity)
    ensures PoolInv(MakeRoom(st, i, need).world, capacity)
    decreases |st.world.running|
  {
    hide PoolInv;
    if need > |st.world.free| && st.world.running != [] {
      ListingParts(st.world);
      PreemptPool(st.world, capacity, st.world.running[|st.world.running| - 1]);
      if st.world.running[|st.world.running| - 1] != i { MakeRoomPool(PreemptLast(st), capacity, i, need); }
    }
  }

  lemma RunOneRecords(inst: Instance, st: Round, i: nat, script: seq<seq<nat>>)
    requires Fitting(inst, st.world) && i < |inst.requests| && PoolInv(st.world, inst.capacity) && RunOne(inst, st, i, None).Ok?
    ensures var r := RunOne(inst, st, i, None);
            Records(st.world.used, r.value.world.used, r, RunOne(inst, st, i, Some(script)), script)
  {
    hide Grow, MakeRoom, Growth, Tokens, PoolInv;
    if i in st.world.running && st.budget != 0 {
      var n := Tokens(inst, st, i);
      var need := Growth(inst, st.world, i, n);
      MakeRoomUsed(st, i, need);
      MakeRoomPool(st, inst.capacity, i, need);
      if i in MakeRoom(st, i, need).world.running {
        GrowRecords(MakeRoom(st, i, need), inst.capacity, i, n, need, st.world.progress[i].computed < inst.requests[i].input, script);
      }
    }
  }

  lemma {:induction false} RunAllRecords(inst: Instance, st: Round, all: seq<nat>, k: nat, script: seq<seq<nat>>)
    requires Passing(inst, st, all, k) && Below(all, |inst.requests|)
    ensures Fitting(inst, st.world)
    ensures var r := RunAll(inst, st, all[k..], None);
            r.Ok? && Records(st.world.used, r.value.world.used, r, RunAll(inst, st, all[k..], Some(script)), script)
    decreases |all| - k
  {
    hide RoundInv, RunOne, Listing;
    RoundListing(inst, st);
    RunAllKeeps(inst, st, all, k, None);
    if k < |all| {
      RunOneKeeps(inst, st, all, k, None);
      RoundPool(inst, st);
      RunOneRecords(inst, st, all[k], script);
      assert all[k..][0] == all[k] && all[k..][1..] == all[k + 1..];
      RunAllRecords(inst, RunOne(inst, st, all[k], None).value, all, k + 1, script);
    }
  }

  lemma RoundPool(inst: Instance, st: Round)
    requires RoundInv(inst, st)
    ensures PoolInv(st.world, inst.capacity)
  {}

  lemma AdmitOneRecords(inst: Instance, st: Round, script: seq<seq<nat>>)
    requires RoundInv(inst, st) && st.world.waiting != [] && st.budget > 0
    requires st.world.waiting[0] < |st.world.progress| == |inst.requests| && PromptFits(inst, st.world)
    ensures Fitting(inst, st.world)
    ensures var hits := Hits(inst.blockSize, inst.requests[st.world.waiting[0]], st.world.identity, 0);
            var r := AdmitOne(inst, st, hits, None);
            r.Ok? && Records(st.world.used, r.value.world.used, r, AdmitOne(inst, st, hits, Some(script)), script)
  {
    hide PoolInv, Hits, Grow, Growth, FirstChunk, Listing, Queued, OthersIdle, AllHolding, Batched;
    RoundListing(inst, st);
    WaitingFresh(inst, st);
    AdmitOneKeeps(inst, st, None);
    var i := st.world.waiting[0];
    var hits := Hits(inst.blockSize, inst.requests[i], st.world.identity, 0);
    HitsFound(inst, st.world, i);
    HoldKeeps(inst, st.world, i, hits);
    var held := Hold(inst, st.world, i, hits);
    var n := FirstChunk(inst, st.budget, held, i);
    GrowRecords(st.(world := held), inst.capacity, i, n, Growth(inst, held, i, n), true, script);
  }

  lemma {:induction false} AdmitAllRecords(inst: Instance, st: Round, script: seq<seq<nat>>)
    requires RoundInv(inst, st)
    ensures Fitting(inst, st.world)
    ensures var r := AdmitAll(inst, st, None);
            r.Ok? && Records(st.world.used, r.value.world.used, r, AdmitAll(inst, st, Some(script)), script)
    decreases |st.world.waiting|
  {
    hide RoundInv, AdmitOne, PromptFits, Hits, Listing;
    RoundListing(inst, st);
    BudgetOK(inst, st);
    ListingParts(st.world);
    AdmitAllKeeps(inst, st, None);
    var w := st.world;
    if w.waiting != [] && st.budget != 0 && |w.running| < inst.maxSequences && PromptFits(inst, w) {
      AdmitOneKeeps(inst, st, None);
      AdmitOneRecords(inst, st, script);
      AdmitAllRecords(inst, AdmitOne(inst, st, Hits(inst.blockSize, inst.requests[w.waiting[0]], w.identity, 0), None).value, script);
    }
  }

  lemma ScheduleRecords(inst: Instance, w: World, script: seq<seq<nat>>)
    requires Opened(inst, w)
    ensures Fitting(inst, w)
    ensures var r := Schedule(inst, w, None);
            r.Ok? && Records(w.used, r.value.world.used, r, Schedule(inst, w, Some(script)), script)
  {
    hide PoolInv, Queued, OthersIdle, AllHolding, RunAll, AdmitAll, Listing, Batched;
    var st := Round(w, inst.tokenBudget, [], false);
    assert RoundInv(inst, st) by { NoServices(w); }
    RoundListing(inst, st);
    RunAllKeeps(inst, st, w.running, 0, None);
    RunAllRecords(inst, st, w.running, 0, script);
    assert w.running[0..] == w.running;
    var run := RunAll(inst, st, w.running, None).value;
    if !run.preempted { AdmitAllRecords(inst, run, script); }
  }

  lemma IterateRecords(inst: Instance, w: World, limits: Option<seq<Limit>>, script: seq<seq<nat>>)
    requires Inv(inst, w) && (limits.Some? ==> |limits.value| == |inst.requests|)
    ensures Fitting(inst, Enqueue(inst, w))
    ensures var r := Iterate(inst, w, None, limits);
            r.Ok? ==> Records(w.used, r.value.used, r, Iterate(inst, w, Some(script), limits), script)
  {
    hide Schedule, Settle, Inv, Opened, RoundInv;
    EnqueueLoad(inst, w);
    ScheduleKeeps(inst, Enqueue(inst, w), None);
    ScheduleRecords(inst, Enqueue(inst, w), script);
    SettleUsed(inst, Schedule(inst, Enqueue(inst, w), None).value, limits);
  }

  /** Replaying the recorded choices of a stock run gives exactly that run. */
  lemma {:induction false} ReplayRecords(inst: Instance, w: World, limits: Option<seq<Limit>>, steps: nat, script: seq<seq<nat>>)
    requires Inv(inst, w) && (limits.Some? ==> |limits.value| == |inst.requests|)
    ensures var r := Replay(inst, w, None, limits, steps);
            r.Ok? ==> w.used <= r.value.used && (r.value.used == script ==> Replay(inst, w, Some(script), limits, steps) == r)
    decreases Measure(inst, w)
  {
    hide Inv, Iterate, Progressed;
    if !Finished(w) && !(limits.None? && steps + 1 > 100 * TokensUpTo(inst, |inst.requests|)) {
      IterateKeeps(inst, w, None, limits);
      IterateRecords(inst, w, limits, script);
      var next := Iterate(inst, w, None, limits);
      if next.Ok? {
        MeasureDrops(inst, w, next.value);
        ReplayRecords(inst, next.value, limits, steps + 1, script);
      }
    }
  }

  // ---------------------------------------------------------------------------------------
  // Limits

  lemma BreaksOn(r: Request, p: Progress, q: Progress, time: int, later: int, l: Limit)
    requires Continues(p.outputs, p.completed, q.outputs, q.completed, later) && time <= later && Breaks(r, p, time, l)
    ensures Breaks(r, q, later, l)
  {
    hide Largest, OpenGaps;
    if r.output > 1 && p.outputs != [] { GapsGrow(p.outputs, p.completed, q.outputs, q.completed, time, later); }
  }

  /** A broken limit stays broken. */
  lemma LatePersists(inst: Instance, w: World, r: World, limits: seq<Limit>)
    requires |w.progress| == |r.progress| == |inst.requests| == |limits|
    requires AllContinue(w, r, r.time) && w.time <= r.time && Late(inst, w, limits)
    ensures Late(inst, r, limits)
  {
    hide Breaks, Continues;
    var i :| 0 <= i < |limits| && Breaks(inst.requests[i], w.progress[i], w.time, limits[i]);
    BreaksOn(inst.requests[i], w.progress[i], r.progress[i], w.time, r.time, limits[i]);
  }

  /** Limits cut a replay exactly when its end breaks them: within limits they change nothing. */
  lemma {:induction false} ReplayWithin(inst: Instance, w: World, script: Option<seq<seq<nat>>>, limits: seq<Limit>, steps: nat)
    requires Inv(inst, w) && |limits| == |inst.requests| == |w.progress|
    ensures var r := Replay(inst, w, script, None, steps);
            r.Ok? ==>
              && |r.value.progress| == |inst.requests|
              && (Late(inst, w, limits) ==> Late(inst, r.value, limits))
              && (!Late(inst, r.value, limits) ==> Replay(inst, w, script, Some(limits), steps) == r)
    decreases Measure(inst, w)
  {
    hide Inv, Iterate, Late, AllContinue, Load;
    if !Finished(w) && !(steps + 1 > 100 * TokensUpTo(inst, |inst.requests|)) {
      IterateKeeps(inst, w, script, None);
      IterateKeeps(inst, w, script, Some(limits));
      IterateLimits(inst, w, script, limits);
      var next := Iterate(inst, w, script, None);
      if next.Ok? {
        MeasureDrops(inst, w, next.value);
        if Late(inst, w, limits) { LatePersists(inst, w, next.value, limits); }
        assert |next.value.progress| == |inst.requests| by { InvSize(inst, next.value); }
        ReplayWithin(inst, next.value, script, limits, steps + 1);
      }
    }
  }

  lemma InvSize(inst: Instance, w: World)
    requires Inv(inst, w)
    ensures |w.progress| == |inst.requests|
  {}

  /** Limits only turn a late result into a deadline failure. */
  lemma IterateLimits(inst: Instance, w: World, script: Option<seq<seq<nat>>>, limits: seq<Limit>)
    requires Inv(inst, w) && |limits| == |inst.requests|
    ensures Fitting(inst, Enqueue(inst, w))
    ensures var r := Iterate(inst, w, script, None);
            r.Ok? ==> |r.value.progress| == |inst.requests| && (!Late(inst, r.value, limits) ==> Iterate(inst, w, script, Some(limits)) == r)
  {
    hide Schedule, Inv, Opened, RoundInv, Late, Settle, Enqueue, SameScript, Listing;
    EnqueueLoad(inst, w);
    ScheduleKeeps(inst, Enqueue(inst, w), script);
    var plan := Schedule(inst, Enqueue(inst, w), script);
    if plan.Ok? {
      ServableRound(inst, plan.value);
      SettleLimits(inst, plan.value, limits);
    }
  }

  lemma SettleLimits(inst: Instance, st: Round, limits: seq<Limit>)
    requires inst.blockSize > 0 && |st.world.progress| == |inst.requests| == |limits|
    ensures var r := Settle(inst, st, None);
            r.Ok? ==> |r.value.progress| == |inst.requests| && (!Late(inst, r.value, limits) ==> Settle(inst, st, Some(limits)) == r)
  {
    hide Late, Settled, Duration, Servable, Future;
  }

  /** A limited iteration that goes through is the unlimited one. */
  lemma IterateUnlimited(inst: Instance, w: World, script: Option<seq<seq<nat>>>, limits: seq<Limit>)
    requires Inv(inst, w) && |limits| == |inst.requests|
    ensures Fitting(inst, Enqueue(inst, w))
    ensures var r := Iterate(inst, w, script, Some(limits));
            r.Ok? ==>
              && |r.value.progress| == |inst.requests| && Iterate(inst, w, script, None) == r
              && (Finished(r.value) && !Finished(w) ==> !Late(inst, r.value, limits))
  {
    hide Schedule, Inv, Opened, RoundInv, Late, Settle, Enqueue, Listing, Finished, SameScript;
    EnqueueLoad(inst, w);
    ScheduleKeeps(inst, Enqueue(inst, w), script);
    var plan := Schedule(inst, Enqueue(inst, w), script);
    if plan.Ok? {
      ServableRound(inst, plan.value);
      SettleUnlimited(inst, plan.value, limits);
      SameFinished(inst, w, plan.value);
    }
  }

  lemma SettleUnlimited(inst: Instance, st: Round, limits: seq<Limit>)
    requires inst.blockSize > 0 && |st.world.progress| == |inst.requests| == |limits|
    ensures var r := Settle(inst, st, Some(limits));
            r.Ok? ==>
              && |r.value.progress| == |inst.requests| && Settle(inst, st, None) == r
              && (Late(inst, r.value, limits) ==> r.value.progress == st.world.progress)
  {
    hide Late, Settled, Duration, Servable, Future;
  }

  lemma SameFinished(inst: Instance, w: World, st: Round)
    requires SameScript(Enqueue(inst, w), st.world)
    ensures forall r: World :: r.progress == st.world.progress ==> (Finished(r) <==> Finished(w))
  {
    assert Enqueue(inst, w).progress == w.progress;
  }

  /** A replay the limits let through is the unlimited one, and its end keeps the limits. */
  lemma {:induction false} ReplayUnlimited(inst: Instance, w: World, script: Option<seq<seq<nat>>>,
                                           limits: seq<Limit>, steps: nat)
    requires Inv(inst, w) && |limits| == |inst.requests| == |w.progress| && !Finished(w)
    requires steps + Measure(inst, w) <= TokensUpTo(inst, |inst.requests|)
    ensures var r := Replay(inst, w, script, Some(limits), steps);
            r.Ok? ==>
              && |r.value.progress| == |inst.requests| && Replay(inst, w, script, None, steps) == r
              && !Late(inst, r.value, limits)
    decreases Measure(inst, w)
  {
    hide Inv, Iterate, Late, Finished, Progressed;
    StillLoaded(inst, w);
    ReplayNext(inst, w, script, None, steps);
    ReplayNext(inst, w, script, Some(limits), steps);
    IterateUnlimited(inst, w, script, limits);
    var next := Iterate(inst, w, script, Some(limits));
    if next.Ok? {
      MeasureDrops(inst, w, next.value);
      if Finished(next.value) {
        ReplayDone(inst, next.value, script, None, steps + 1);
        ReplayDone(inst, next.value, script, Some(limits), steps + 1);
      } else {
        ReplayUnlimited(inst, next.value, script, limits, steps + 1);
      }
    }
  }

  /** The pruning by limits is exact, for every script: it lets through just the replays whose end keeps the limits. */
  lemma PruningExact(inst: Instance, script: seq<seq<nat>>, limits: seq<Limit>)
    requires inst.Valid() && |limits| == |inst.requests|
    ensures var limited, free := FullReplay(inst, Some(script), Some(limits)), FullReplay(inst, Some(script), None);
            && (free.Ok? ==> |free.value.progress| == |inst.requests|)
            && (limited.Ok? <==> free.Ok? && !Late(inst, free.value, limits))
            && (limited.Ok? ==> limited == free)
  {
    hide Inv, Replay, Late;
    StartInv(inst);
    StartLoad(inst);
    StartUnfinished(inst);
    ReplayUnlimited(inst, Start(inst), Some(script), limits, 0);
    ReplayWithin(inst, Start(inst), Some(script), limits, 0);
  }

  lemma StartUnfinished(inst: Instance)
    requires inst.Valid()
    ensures |Start(inst).progress| == |inst.requests| && !Finished(Start(inst))
  {
    assert Start(inst).progress[0] == Untouched;
  }

  /** limits_for. */
  function LimitsFor(inst: Instance, baseline: World): (limits: seq<Limit>)
    requires |baseline.progress| == |inst.requests|
    requires forall i :: 0 <= i < |baseline.progress| ==> baseline.progress[i].completed.Some? && baseline.progress[i].outputs != []
    ensures |limits| == |inst.requests|
  {
    seq(|inst.requests|, i requires 0 <= i < |inst.requests| =>
      var r, p := inst.requests[i], baseline.progress[i];
      Limit(r.arrival + Allowed(inst, p.completed.value - r.arrival), Allowed(inst, p.completed.value - p.outputs[0]),
            Allowed(inst, Largest(Gaps(p.outputs)))))
  }

  lemma FinishedRecords(inst: Instance, w: World)
    requires Inv(inst, w) && Finished(w)
    ensures |w.progress| == |inst.requests|
    ensures forall i :: 0 <= i < |w.progress| ==> w.progress[i].completed.Some? && w.progress[i].outputs != []
  {
    forall i | 0 <= i < |w.progress| ensures w.progress[i].outputs != [] { assert Timed(w.progress[i], w.time); }
  }

  lemma AllowsItself(inst: Instance, n: int)
    requires inst.Valid()
    ensures n <= Allowed(inst, n)
  {}

  /** `x` is more than the slack above `n`: more than the percentage and more than the absolute tolerance. */
  predicate Over(inst: Instance, x: int, n: int) {
    100 * (x - n) > inst.slackPercent * n && x - n > inst.epsilon
  }

  /** Rounding the tolerance down changes nothing: the integer limit is broken exactly if the rational one is. */
  lemma AllowedMeans(inst: Instance, x: int, n: int)
    ensures x > Allowed(inst, n) <==> Over(inst, x, n)
  {
    var y := n * inst.slackPercent;
    assert y == inst.slackPercent * n;
    assert y == 100 * (y / 100) + y % 100;
  }

  /** Some gap between outputs, or since the last one while the request runs, is over the slack above `n`. */
  ghost predicate LongGap(inst: Instance, p: Progress, time: int, n: int) {
    || (exists k: nat :: k < |p.outputs| - 1 && Over(inst, GapAt(p.outputs, k), n))
    || (p.completed.None? && p.outputs != [] && Over(inst, time - p.outputs[|p.outputs| - 1], n))
  }

  /**
   A request with record `p` is behind its baseline record `b` by more than the slack: in completing since its
   arrival, in decoding since its first output, or in one gap between outputs. An open request is measured up to
   now, and the last two only count for more than one output.
   */
  ghost predicate Behind(inst: Instance, r: Request, b: Progress, p: Progress, time: int)
    requires b.completed.Some? && b.outputs != []
  {
    var done := if p.completed.Some? then p.completed.value else time;
    || Over(inst, done - r.arrival, b.completed.value - r.arrival)
    || (r.output > 1 && p.outputs != [] &&
        (|| Over(inst, done - p.outputs[0], b.completed.value - b.outputs[0])
         || LongGap(inst, p, time, Largest(Gaps(b.outputs)))))
  }

  ghost predicate SomeOver(inst: Instance, gaps: seq<int>, n: int) {
    exists k :: 0 <= k < |gaps| && Over(inst, gaps[k], n)
  }

  lemma LargestOver(inst: Instance, gaps: seq<int>, n: int)
    requires gaps != []
    ensures Largest(gaps) > Allowed(inst, n) <==> SomeOver(inst, gaps, n)
  {
    var m := Largest(gaps);
    var k :| 0 <= k < |gaps| && gaps[k] == m;
    hide Largest, Allowed, Over;
    AllowedMeans(inst, m, n);
    forall j | 0 <= j < |gaps| && Over(inst, gaps[j], n) ensures Over(inst, m, n) {
      OverGrows(inst, gaps[j], m, n);
    }
  }

  lemma OverGrows(inst: Instance, x: int, y: int, n: int)
    requires x <= y && Over(inst, x, n)
    ensures Over(inst, y, n)
  {
    assert 100 * (y - n) >= 100 * (x - n);
  }

  lemma GapsOver(inst: Instance, p: Progress, time: int, n: int)
    requires p.outputs != [] && (p.completed.Some? ==> |p.outputs| > 1)
    ensures var gaps := OpenGaps(p.outputs, p.completed, time);
            gaps != [] && (SomeOver(inst, gaps, n) <==> LongGap(inst, p, time, n))
  {
    hide Over, Gaps, GapAt;
    var gaps, m := OpenGaps(p.outputs, p.completed, time), |p.outputs|;
    GapsAre(p.outputs);
    assert forall k: nat :: k < m - 1 ==> gaps[k] == GapAt(p.outputs, k);
    if SomeOver(inst, gaps, n) {
      var k :| 0 <= k < |gaps| && Over(inst, gaps[k], n);
      if k < m - 1 { assert Over(inst, GapAt(p.outputs, k), n); }
    }
    if LongGap(inst, p, time, n) {
      if k: nat :| k < m - 1 && Over(inst, GapAt(p.outputs, k), n) {
        assert Over(inst, gaps[k], n);
      } else {
        assert Over(inst, gaps[m - 1], n);
      }
    }
  }

  lemma GapLate(inst: Instance, r: Request, b: Progress, p: Progress, time: int)
    requires b.completed.Some? && b.outputs != [] && p.outputs != [] && r.output > 1
    requires p.completed.Some? ==> |p.outputs| == r.output
    ensures Largest(OpenGaps(p.outputs, p.completed, time)) > Allowed(inst, Largest(Gaps(b.outputs)))
            <==> LongGap(inst, p, time, Largest(Gaps(b.outputs)))
  {
    hide *;
    GapsOver(inst, p, time, Largest(Gaps(b.outputs)));
    LargestOver(inst, OpenGaps(p.outputs, p.completed, time), Largest(Gaps(b.outputs)));
  }

  lemma RecordBehind(inst: Instance, r: Request, b: Progress, p: Progress, time: int, l: Limit)
    requires b.completed.Some? && b.outputs != [] && (p.completed.Some? ==> |p.outputs| == r.output)
    requires l == Limit(r.arrival + Allowed(inst, b.completed.value - r.arrival), Allowed(inst, b.completed.value - b.outputs[0]),
                        Allowed(inst, Largest(Gaps(b.outputs))))
    ensures Breaks(r, p, time, l) <==> Behind(inst, r, b, p, time)
  {
    hide Allowed, Over, Largest, Gaps, LongGap, OpenGaps;
    var done := Completion(p.completed, time);
    AllowedMeans(inst, done - r.arrival, b.completed.value - r.arrival);
    if r.output > 1 && p.outputs != [] {
      AllowedMeans(inst, done - p.outputs[0], b.completed.value - b.outputs[0]);
      GapLate(inst, r, b, p, time);
    }
  }

  /** Every request of the world has an output and has completed. */
  ghost predicate Ended(w: World) {
    forall i :: 0 <= i < |w.progress| ==> w.progress[i].completed.Some? && w.progress[i].outputs != []
  }

  /** Some request of `w` is behind its record in the baseline. */
  ghost predicate AnyBehind(inst: Instance, baseline: World, w: World)
    requires |w.progress| == |baseline.progress| == |inst.requests| && Ended(baseline)
  {
    exists i | 0 <= i < |inst.requests| :: Behind(inst, inst.requests[i], baseline.progress[i], w.progress[i], w.time)
  }

  /** The limits of a baseline are broken exactly if some request is behind it by more than the slack. */
  lemma LateMeans(inst: Instance, baseline: World, w: World)
    requires Inv(inst, baseline) && Finished(baseline) && Inv(inst, w)
    ensures |w.progress| == |baseline.progress| == |inst.requests| && Ended(baseline)
    ensures Late(inst, w, LimitsFor(inst, baseline)) <==> AnyBehind(inst, baseline, w)
  {
    FinishedRecords(inst, baseline);
    InvSize(inst, w);
    hide Inv, Breaks, Behind, Finished, LimitsFor, Ended, Instance.Valid;
    forall i | 0 <= i < |inst.requests|
      ensures Breaks(inst.requests[i], w.progress[i], w.time, LimitsFor(inst, baseline)[i])
              <==> Behind(inst, inst.requests[i], baseline.progress[i], w.progress[i], w.time)
    {
      BehindAt(inst, baseline, w, i);
    }
  }

  lemma BehindAt(inst: Instance, baseline: World, w: World, i: nat)
    requires Inv(inst, w) && |w.progress| == |baseline.progress| == |inst.requests| && Ended(baseline) && i < |inst.requests|
    ensures Breaks(inst.requests[i], w.progress[i], w.time, LimitsFor(inst, baseline)[i])
            <==> Behind(inst, inst.requests[i], baseline.progress[i], w.progress[i], w.time)
  {
    CompleteOutputs(inst, w);
    hide Inv, Breaks, Behind, Allowed, Largest, Gaps;
    RecordBehind(inst, inst.requests[i], baseline.progress[i], w.progress[i], w.time, LimitsFor(inst, baseline)[i]);
  }

  lemma CompleteOutputs(inst: Instance, w: World)
    requires Inv(inst, w)
    ensures |w.progress| == |inst.requests|
    ensures forall i :: 0 <= i < |w.progress| && w.progress[i].completed.Some? ==> |w.progress[i].outputs| == inst.requests[i].output
  {
    forall i | 0 <= i < |w.progress| && w.progress[i].completed.Some?
      ensures |w.progress[i].outputs| == inst.requests[i].output
    {
      assert Scripted(inst.requests[i], w.progress[i], i in w.released);
    }
  }

  lemma BaselineNotLate(inst: Instance, w: World)
    requires Inv(inst, w) && Finished(w)
    ensures |w.progress| == |inst.requests|
    ensures forall i :: 0 <= i < |w.progress| ==> w.progress[i].completed.Some? && w.progress[i].outputs != []
    ensures !Late(inst, w, LimitsFor(inst, w))
  {
    hide Opened, Allowed, Largest, Gaps;
    FinishedRecords(inst, w);
    var limits := LimitsFor(inst, w);
    OpenedValid(inst, w);
    forall i | 0 <= i < |limits| ensures !Breaks(inst.requests[i], w.progress[i], w.time, limits[i]) {
      var p := w.progress[i];
      assert OpenGaps(p.outputs, p.completed, w.time) == Gaps(p.outputs);
      AllowsItself(inst, p.completed.value - inst.requests[i].arrival);
      AllowsItself(inst, p.completed.value - p.outputs[0]);
      AllowsItself(inst, Largest(Gaps(p.outputs)));
    }
  }

  /** The exact baseline script is a feasible policy under the limits derived from the baseline. */
  lemma BaselineReproduced(inst: Instance)
    requires inst.Valid() && FullReplay(inst, None, None).Ok?
    ensures var baseline := FullReplay(inst, None, None).value;
            && Inv(inst, baseline) && Finished(baseline) && |baseline.progress| == |inst.requests|
            && (forall i :: 0 <= i < |baseline.progress| ==> baseline.progress[i].completed.Some? && baseline.progress[i].outputs != [])
            && FullReplay(inst, Some(baseline.used), Some(LimitsFor(inst, baseline))) == Ok(baseline)
  {
    hide Inv, Start, Replay, Late;
    BaselineFinishes(inst);
    StartInv(inst);
    InvSize(inst, Start(inst));
    var baseline := FullReplay(inst, None, None).value;
    BaselineNotLate(inst, baseline);
    ReplayRecords(inst, Start(inst), None, 0, baseline.used);
    ReplayWithin(inst, Start(inst), Some(baseline.used), LimitsFor(inst, baseline), 0);
  }
}
