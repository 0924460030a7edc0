/** Whole iterations and runs of the eviction model: they keep the invariant, never fail on their own, and end. */
module EvictionIterate {
  import opened Common
  import opened Division
  import opened OutputGaps
  import opened EvictionModel
  import opened EvictionPool
  import opened EvictionRound
  import opened EvictionStep

  // ---------------------------------------------------------------------------------------
  // The measure

  /** Demand of the requests that are not complete. */
  function OpenDemand(inst: Instance, progress: seq<Progress>, n: nat): int
    requires n <= |progress| == |inst.requests|
  {
    if n == 0 then 0
    else OpenDemand(inst, progress, n - 1) + if progress[n - 1].completed.None? then Demand(inst.requests[n - 1]) else 0
  }

  /** Arrivals still to come. */
  function LateArrivals(inst: Instance, time: int, n: nat): nat
    requires n <= |inst.requests|
  {
    if n == 0 then 0 else LateArrivals(inst, time, n - 1) + if inst.requests[n - 1].arrival > time then 1 else 0
  }

  /** Tokens the head of the queue has computed; they are never lost. */
  function HeadComputed(w: World): nat
    requires Below(Queue(w), |w.progress|)
  {
    if Queue(w) == [] then 0 else w.progress[Queue(w)[0]].computed
  }

  function Load(inst: Instance, w: World): int
    requires |w.progress| == |inst.requests| && Below(Queue(w), |w.progress|)
  {
    OpenDemand(inst, w.progress, |w.progress|) - HeadComputed(w) + LateArrivals(inst, w.time, |inst.requests|)
  }

  lemma {:induction false} DemandDrops(inst: Instance, p: seq<Progress>, q: seq<Progress>, n: nat, i: int)
    requires inst.Valid() && n <= |p| == |q| == |inst.requests|
    requires forall k :: 0 <= k < n && q[k].completed.None? ==> p[k].completed.None?
    requires 0 <= i < n ==> p[i].completed.None? && q[i].completed.Some?
    ensures OpenDemand(inst, q, n) <= OpenDemand(inst, p, n) - (if 0 <= i < n then Demand(inst.requests[i]) else 0)
  {
    if n > 0 { DemandDrops(inst, p, q, n - 1, i); }
  }

  lemma {:induction false} LateDrops(inst: Instance, time: int, later: int, n: nat, i: int)
    requires n <= |inst.requests| && time <= later
    requires 0 <= i < n ==> time < inst.requests[i].arrival <= later
    ensures LateArrivals(inst, later, n) <= LateArrivals(inst, time, n) - (if 0 <= i < n then 1 else 0)
  {
    if n > 0 { LateDrops(inst, time, later, n - 1, i); }
  }

  lemma {:induction false} DemandAtLeast(inst: Instance, p: seq<Progress>, n: nat, i: int)
    requires inst.Valid() && n <= |p| == |inst.requests| && (0 <= i < n ==> p[i].completed.None?)
    ensures OpenDemand(inst, p, n) >= if 0 <= i < n then Demand(inst.requests[i]) else 0
  {
    if n > 0 { DemandAtLeast(inst, p, n - 1, i); }
  }

  lemma OpenedParts(inst: Instance, w: World)
    requires Opened(inst, w)
    ensures inst.Valid() && |w.progress| == |inst.requests| && Below(Queue(w), |w.progress|)
    ensures forall i :: 0 <= i < |inst.requests| ==> Demand(inst.requests[i]) >= 1
  {}

  lemma LoadNonnegative(inst: Instance, w: World)
    requires Opened(inst, w)
    ensures |w.progress| == |inst.requests| && Below(Queue(w), |w.progress|) && Load(inst, w) >= 0
    ensures !Finished(w) ==> Load(inst, w) > 0
  {
    hide Opened, Demand;
    OpenedParts(inst, w);
    var n := |w.progress|;
    DemandAtLeast(inst, w.progress, n, -1);
    if Queue(w) != [] {
      HeadWithin(inst, w);
      DemandAtLeast(inst, w.progress, n, Queue(w)[0]);
    } else if !Finished(w) {
      var i :| 0 <= i < n && w.progress[i].completed.None?;
      DemandAtLeast(inst, w.progress, n, i);
    }
  }

  /** The head of the queue has computed less than its demand. */
  lemma HeadWithin(inst: Instance, w: World)
    requires Opened(inst, w) && Queue(w) != []
    ensures var h := Queue(w)[0];
            h < |w.progress| == |inst.requests| && w.progress[h].completed.None? && w.progress[h].computed < Demand(inst.requests[h])
  {
    ListingParts(w);
    var h := Queue(w)[0];
    assert h in Queue(w);
    TargetWithin(inst, w, h);
    if h in w.running { assert Holding(inst, w, h, Pledged([], h)); }
  }

  // ---------------------------------------------------------------------------------------
  // Settling a batch

  lemma {:induction false} CostPositive(inst: Instance, services: seq<Service>)
    requires inst.Valid() && forall k :: 0 <= k < |services| ==> services[k].tokens >= 1
    ensures AffineCost(inst, services) >= 0
  {
    if services != [] {
      var s := services[|services| - 1];
      CostPositive(inst, services[..|services| - 1]);
      assert s.tokens * (if s.prefill then inst.prefillCost else inst.decodeCost) >= 1;
    }
  }

  lemma DurationPositive(inst: Instance, st: Round)
    requires RoundInv(inst, st)
    ensures Duration(inst, st.services).Some? ==> Duration(inst, st.services).value > 0
  {
    CostPositive(inst, st.services);
  }

  lemma {:induction false} FinishFirstCome(inst: Instance, w: World, todo: seq<nat>)
    requires FirstCome(inst, Queue(w))
    ensures FirstCome(inst, Queue(FinishAll(w, todo)))
    decreases |todo|
  {
    hide Release;
    if todo != [] {
      if todo[0] < |w.progress| && w.progress[todo[0]].completed.Some? && todo[0] in w.running {
        var a := Finish(w, todo[0]);
        FinishRecord(w, todo[0]);
        RemoveFromQueue(w.running, w.waiting, todo[0]);
        FinishFirstCome(inst, a, todo[1..]);
      } else {
        FinishFirstCome(inst, w, todo[1..]);
      }
    }
  }

  lemma TimedContinues(p: Progress, q: Progress, time: int, end: int)
    requires Timed(p, time) && time < end && Continues(p.outputs, p.completed, q.outputs, q.completed, end)
    ensures Timed(q, end)
  {}

  /** What the settled world is made of. */
  lemma SettledParts(inst: Instance, st: Round, end: int)
    requires RoundInv(inst, st)
    ensures Servable(inst, st.services) && |st.world.progress| == |inst.requests| && inst.blockSize > 0
    ensures var a := ServeAll(inst, st.world, st.services, end);
            var r := Settled(inst, st, end);
            && Opened(inst, r) && AllContinue(st.world, r, end) && r.time == end && r.released == st.world.released
            && r.used == st.world.used
            && (FirstCome(inst, Queue(st.world)) ==> FirstCome(inst, Queue(r)))
            && Left(a, r.(time := a.time)) && a.running == st.world.running
  {
    hide ServeAll, FinishAll, Leaving, Opened, Continues, FirstCome, Left;
    ServeLeaving(inst, st, end);
    var a := ServeAll(inst, st.world, st.services, end);
    LeavingListing(inst, a);
    forall i | i in a.running && i < |a.progress| && a.progress[i].completed.Some? ensures i in a.running {}
    FinishAllLeaves(inst, a, a.running);
    var f := FinishAll(a, a.running);
    assert Queue(a) == Queue(st.world);
    if FirstCome(inst, Queue(st.world)) { FinishFirstCome(inst, a, a.running); }
    LeftOpened(inst, f);
    var r := Settled(inst, st, end);
    assert r == f.(time := end);
    OpenedFrame(inst, f, r);
    LeftContinues(st.world, a, f, r, end);
  }

  lemma OpenedFrame(inst: Instance, w: World, r: World)
    requires Opened(inst, w) && r == w.(time := r.time)
    ensures Opened(inst, r) && Queue(r) == Queue(w)
  {}

  lemma LeftContinues(w: World, a: World, f: World, r: World, end: int)
    requires AllContinue(w, a, end) && Left(a, f) && r == f.(time := end)
    ensures AllContinue(w, r, end) && r.released == a.released && r.used == a.used && Left(a, r.(time := a.time))
  {
    hide Continues;
  }

  /** A served batch: invariant, later time, and a lower load. */
  lemma SettledInv(inst: Instance, w: World, st: Round, end: int)
    requires RoundInv(inst, st) && SameScript(w, st.world) && Queue(st.world) == Queue(w) && end > w.time
    requires AllTimed(w) && InOrder(inst, w) && FirstCome(inst, Queue(w))
    ensures Servable(inst, st.services) && |st.world.progress| == |inst.requests| && inst.blockSize > 0
    ensures Inv(inst, Settled(inst, st, end)) && AllContinue(w, Settled(inst, st, end), end)
  {
    hide Opened, FirstCome, Settled, Left, Timed, Continues, RoundInv;
    SettledParts(inst, st, end);
    var r := Settled(inst, st, end);
    forall i | 0 <= i < |r.progress| ensures Timed(r.progress[i], r.time) {
      assert Timed(w.progress[i], w.time);
      TimedContinues(w.progress[i], r.progress[i], w.time, end);
    }
  }

  /** What the settled head looks like. */
  lemma SettledHead(inst: Instance, st: Round, end: int, h: nat)
    requires RoundInv(inst, st) && st.services != [] && st.services[0].index == h && Queue(st.world) != [] && Queue(st.world)[0] == h
    requires st.world.running != []
    ensures Servable(inst, st.services) && |st.world.progress| == |inst.requests| && inst.blockSize > 0 && h < |inst.requests|
    ensures var r := Settled(inst, st, end);
            && |r.progress| == |inst.requests|
            && r.progress[h].computed >= st.world.progress[h].computed + 1
            && st.world.progress[h].computed < Demand(inst.requests[h]) && st.world.progress[h].completed.None?
            && (r.progress[h].completed.None? ==> Queue(r) != [] && Queue(r)[0] == h)
  {
    hide ServeAll, PoolInv, Left, AllServed, Settled, Ceil, Listing, OthersIdle;
    SettledParts(inst, st, end);
    QueuedListing(inst, st.world);
    ListingParts(st.world);
    assert st.world.running[0] == h && h in st.world.running && h in Queue(st.world);
    ServedOne(inst, st, end, h);
    PledgedOf(st.services, 0);
    assert Holding(inst, st.world, h, Pledged(st.services, h));
    TargetWithin(inst, st.world, h);
    LeftHead(ServeAll(inst, st.world, st.services, end), Settled(inst, st, end), h);
  }

  lemma LeftHead(a: World, r: World, h: nat)
    requires Left(a, r.(time := a.time)) && h < |a.progress| && a.running != [] && a.running[0] == h
    ensures |r.progress| == |a.progress| && r.progress[h].computed == a.progress[h].computed
    ensures r.progress[h].completed == a.progress[h].completed
    ensures r.progress[h].completed.None? ==> Queue(r) != [] && Queue(r)[0] == h
  {
    assert r.(time := a.time).progress == r.progress;
  }

  lemma SettledLowers(inst: Instance, w: World, st: Round, end: int, h: nat)
    requires RoundInv(inst, st) && SameScript(w, st.world) && Queue(st.world) == Queue(w) && end > w.time
    requires Opened(inst, w) && Queue(w) != [] && h == Queue(w)[0] && st.services != [] && st.services[0].index == h
    requires st.world.running != [] && h < |w.progress| == |st.world.progress| == |inst.requests|
    requires w.progress[h].computed <= st.world.progress[h].computed
    ensures Servable(inst, st.services) && inst.blockSize > 0 && Below(Queue(w), |w.progress|)
    ensures var r := Settled(inst, st, end);
            |r.progress| == |inst.requests| && Below(Queue(r), |r.progress|) && Load(inst, r) < Load(inst, w)
  {
    hide RoundInv, Opened, Settled, Left, Continues, Demand;
    SettledParts(inst, st, end);
    SettledHead(inst, st, end, h);
    var r := Settled(inst, st, end);
    LoadNonnegative(inst, w);
    LoadNonnegative(inst, r);
    forall k | 0 <= k < |r.progress| && r.progress[k].completed.None? ensures w.progress[k].completed.None? {
      StillOpen(st.world.progress[k], r.progress[k], end);
    }
    var n := |inst.requests|;
    OpenedValid(inst, w);
    LateDrops(inst, w.time, end, n, -1);
    if r.progress[h].completed.None? {
      DemandDrops(inst, w.progress, r.progress, n, -1);
    } else {
      DemandDrops(inst, w.progress, r.progress, n, h);
    }
  }

  lemma OpenedValid(inst: Instance, w: World)
    requires Opened(inst, w)
    ensures inst.Valid()
  {}

  // ---------------------------------------------------------------------------------------
  // One iteration

  lemma EnqueueLoad(inst: Instance, w: World)
    requires Inv(inst, w)
    ensures var q := Enqueue(inst, w);
            && |w.progress| == |q.progress| == |inst.requests| && Below(Queue(w), |w.progress|) && Below(Queue(q), |q.progress|)
            && Opened(inst, q) && Load(inst, q) == Load(inst, w)
  {
    hide PoolInv, AllHolding, FirstCome, AllTimed;
    EnqueueOpened(inst, w);
    EnqueueQueue(inst, w);
    var q := Enqueue(inst, w);
    ListingParts(q);
    if Queue(w) == [] && Queue(q) != [] {
      var h := Queue(q)[0];
      assert h in Queue(q) && h in Arrivals(inst, w, |inst.requests|);
      assert Scripted(inst.requests[h], w.progress[h], h in w.released);
    }
  }

  /** The only ways an iteration of a sound world can fail: the script, the limits or a missing cost entry. */
  ghost predicate OnlyOutside(inst: Instance, r: Result<World>, script: Option<seq<seq<nat>>>, limits: Option<seq<Limit>>) {
    && (r.Fails? ==> r.why == IllegalVictims || r.why == Deadline || r.why == MissingCost)
    && (r.Fails? && r.why == IllegalVictims ==> script.Some?) && (r.Fails? && r.why == Deadline ==> limits.Some?)
    && (r.Fails? && r.why == MissingCost ==> inst.costTable.Some?)
    && (r.Choose? ==> script.Some? && Distinct(r.candidates))
  }

  /** A later sound world with every record continued and less load. */
  ghost predicate Progressed(inst: Instance, w: World, r: World) {
    && |w.progress| == |inst.requests| && Below(Queue(w), |w.progress|)
    && Inv(inst, r) && AllContinue(w, r, r.time) && r.time > w.time
    && Below(Queue(r), |r.progress|) && Load(inst, r) < Load(inst, w)
  }

  /** With a service, or by jumping to the next arrival, every iteration gets on. */
  lemma IterateKeeps(inst: Instance, w: World, script: Option<seq<seq<nat>>>, limits: Option<seq<Limit>>)
    requires Inv(inst, w) && !Finished(w) && (limits.Some? ==> |limits.value| == |inst.requests|)
    ensures Fitting(inst, Enqueue(inst, w)) && |w.progress| == |inst.requests| && Below(Queue(w), |w.progress|)
    ensures var r := Iterate(inst, w, script, limits);
            && OnlyOutside(inst, r, script, limits)
            && (r.Ok? ==> Progressed(inst, w, r.value))
  {
    hide Inv, Schedule, Settle, Opened, Enqueue, Listing, Progressed, RoundInv, AllTimed, InOrder, FirstCome,
         SameScript, Finished, Load;
    EnqueueLoad(inst, w);
    InvParts(inst, w);
    var q := Enqueue(inst, w);
    ScheduleKeeps(inst, q, script);
    var plan := Schedule(inst, q, script);
    if plan.Ok? {
      if plan.value.services == [] {
        IdleStep(inst, w, plan.value, limits);
      } else {
        ServedStep(inst, w, script, plan.value, limits);
      }
    }
  }

  lemma InvParts(inst: Instance, w: World)
    requires Inv(inst, w)
    ensures var q := Enqueue(inst, w);
            && AllTimed(q) && InOrder(inst, q) && FirstCome(inst, Queue(q)) && q.time == w.time && q.progress == w.progress
            && forall i :: 0 <= i < |inst.requests| && i !in q.released ==> inst.requests[i].arrival > q.time
  {
    hide Opened;
    EnqueueQueue(inst, w);
    var q := Enqueue(inst, w);
    forall i | 0 <= i < |inst.requests| && i !in q.released ensures inst.requests[i].arrival > q.time {
      assert !Arrives(inst, w, i);
    }
  }

  /** Nothing to serve: the queue is empty, someone is still to arrive, and the clock jumps. */
  lemma IdleStep(inst: Instance, w: World, st: Round, limits: Option<seq<Limit>>)
    requires Inv(inst, w) && !Finished(w) && (limits.Some? ==> |limits.value| == |inst.requests|)
    requires RoundInv(inst, st) && st.services == [] && SameScript(Enqueue(inst, w), st.world)
    requires Queue(st.world) == Queue(Enqueue(inst, w)) == []
    ensures |w.progress| == |st.world.progress| == |inst.requests| && Below(Queue(w), |w.progress|) && inst.blockSize > 0
    ensures var r := Settle(inst, st, limits);
            r.Ok? && Progressed(inst, w, r.value)
  {
    hide PoolInv, Enqueue, RoundInv, Inv, Future, OpenDemand, LateArrivals, Finished;
    EnqueueLoad(inst, w);
    InvParts(inst, w);
    FutureExists(inst, w, st);
    var q := Enqueue(inst, w);
    var r := st.world.(time := Least(Future(inst, st.world)));
    assert Settle(inst, st, limits) == Ok(r);
    LeastIsLater(inst, st.world, q);
    RoundOpened(inst, st, r);
    IdleInv(inst, q, r);
    IdleLoad(inst, q, r);
  }

  lemma FutureExists(inst: Instance, w: World, st: Round)
    requires !Finished(w) && RoundInv(inst, st) && Queue(st.world) == []
    requires SameScript(Enqueue(inst, w), st.world)
    ensures |st.world.progress| == |inst.requests| && inst.blockSize > 0 && Future(inst, st.world) != {}
  {
    hide PoolInv;
    QueuedListing(inst, st.world);
    var i :| 0 <= i < |w.progress| && w.progress[i].completed.None?;
    assert st.world.progress[i].completed.None?;
    assert i !in Queue(st.world);
    assert inst.requests[i].arrival in Future(inst, st.world);
  }

  lemma LeastIsLater(inst: Instance, w: World, q: World)
    requires Future(inst, w) != {} && w.released == q.released
    requires forall i :: 0 <= i < |inst.requests| && i !in q.released ==> inst.requests[i].arrival > q.time
    ensures Least(Future(inst, w)) > q.time
    ensures exists j :: 0 <= j < |inst.requests| && q.time < inst.requests[j].arrival == Least(Future(inst, w))
  {
    var j: nat :| j < |inst.requests| && j !in w.released && inst.requests[j].arrival == Least(Future(inst, w));
  }

  lemma IdleLoad(inst: Instance, q: World, r: World)
    requires |q.progress| == |r.progress| == |inst.requests| && Below(Queue(q), |q.progress|) && Queue(r) == [] == Queue(q)
    requires SameScript(q, r.(time := q.time)) && q.time < r.time
    requires exists j :: 0 <= j < |inst.requests| && q.time < inst.requests[j].arrival == r.time
    ensures Load(inst, r) < Load(inst, q)
  {
    assert r.(time := q.time).progress == r.progress;
    var j :| 0 <= j < |inst.requests| && q.time < inst.requests[j].arrival == r.time;
    LateDrops(inst, q.time, r.time, |inst.requests|, j);
    SameDemand(inst, q.progress, r.progress, |inst.requests|);
  }

  lemma RoundOpened(inst: Instance, st: Round, r: World)
    requires RoundInv(inst, st) && st.services == [] && r == st.world.(time := r.time)
    ensures Opened(inst, r)
  {
    hide PoolInv, Holding;
    PoolFrame(st.world, r, inst.capacity);
    forall i | i in r.running && i < |r.progress| ensures Holding(inst, r, i, Pledged([], i)) {
      HoldingFrame(inst, st.world, r, i, Pledged([], i));
    }
  }

  lemma IdleInv(inst: Instance, q: World, r: World)
    requires Opened(inst, r) && SameScript(q, r.(time := q.time)) && Queue(r) == [] && q.time < r.time
    requires AllTimed(q) && InOrder(inst, q)
    ensures Inv(inst, r) && AllContinue(q, r, r.time)
  {
    hide Opened, Continues;
    assert r.(time := q.time).progress == r.progress;
    forall i | 0 <= i < |r.progress|
      ensures Timed(r.progress[i], r.time)
      ensures Continues(q.progress[i].outputs, q.progress[i].completed, r.progress[i].outputs, r.progress[i].completed, r.time)
    {
      assert Timed(q.progress[i], q.time);
      SameContinues(q.progress[i].outputs, q.progress[i].completed, r.time);
    }
  }

  lemma SameContinues(outputs: seq<int>, completed: Option<int>, later: int)
    ensures Continues(outputs, completed, outputs, completed, later)
  {}

  lemma {:induction false} SameDemand(inst: Instance, p: seq<Progress>, q: seq<Progress>, n: nat)
    requires n <= |p| == |q| == |inst.requests| && forall k :: 0 <= k < n ==> p[k].completed == q[k].completed
    ensures OpenDemand(inst, p, n) == OpenDemand(inst, q, n)
  {
    if n > 0 { SameDemand(inst, p, q, n - 1); }
  }

  /** A batch is served. */
  lemma ServedStep(inst: Instance, w: World, script: Option<seq<seq<nat>>>, st: Round, limits: Option<seq<Limit>>)
    requires Inv(inst, w) && (limits.Some? ==> |limits.value| == |inst.requests|)
    requires Opened(inst, Enqueue(inst, w)) && Fitting(inst, Enqueue(inst, w)) && Schedule(inst, Enqueue(inst, w), script) == Ok(st)
    requires st.services != []
    ensures |w.progress| == |st.world.progress| == |inst.requests| && Below(Queue(w), |w.progress|) && inst.blockSize > 0
    ensures var r := Settle(inst, st, limits);
            && (r.Fails? ==> r.why == Deadline || r.why == MissingCost) && !r.Choose?
            && (r.Fails? && r.why == Deadline ==> limits.Some?) && (r.Fails? && r.why == MissingCost ==> inst.costTable.Some?)
            && (r.Ok? ==> Progressed(inst, w, r.value))
  {
    hide Inv, Schedule, Opened, Enqueue, Settled, Late, Listing, RoundInv, FirstCome, AllTimed, InOrder;
    var q := Enqueue(inst, w);
    EnqueueLoad(inst, w);
    InvParts(inst, w);
    ScheduleKeeps(inst, q, script);
    ServableRound(inst, st);
    DurationPositive(inst, st);
    ServedQueueNonempty(inst, st);
    var cost := Duration(inst, st.services);
    if cost.Some? {
      var end := st.world.time + cost.value;
      var h := Queue(q)[0];
      OpenedValid(inst, q);
      ListingParts(q);
      assert q.progress[h].computed <= st.world.progress[h].computed by { HeadKept(inst, q, st, h); }
      SettledInv(inst, q, st, end);
      SettledLowers(inst, q, st, end, h);
      SettledTime(inst, st, end);
    }
  }

  lemma ServedQueueNonempty(inst: Instance, st: Round)
    requires RoundInv(inst, st) && st.services != []
    ensures Queue(st.world) != []
  {
    ServedRuns(inst, st);
  }

  lemma SettledTime(inst: Instance, st: Round, end: int)
    requires RoundInv(inst, st)
    ensures Servable(inst, st.services) && |st.world.progress| == |inst.requests| && inst.blockSize > 0
    ensures Settled(inst, st, end).time == end
  {
    ServableRound(inst, st);
  }

  /** Planning never lowers what the head has computed. */
  lemma HeadKept(inst: Instance, q: World, st: Round, h: nat)
    requires Opened(inst, q) && Queue(q) != [] && h == Queue(q)[0] && h < |q.progress| && h < |st.world.progress|
    requires q.running != [] ==> st.world.progress[q.running[0]].computed == q.progress[q.running[0]].computed
    ensures q.progress[h].computed <= st.world.progress[h].computed
  {
    ListingParts(q);
    if q.running == [] {
      assert h in Queue(q) && h !in q.running;
    }
  }
}
