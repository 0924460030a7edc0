/** Whole replays: they never fail on their own and stay within the step bound, and how their scripts decide them. */
module EvictionReplay {
  import opened Common
  import opened Division
  import opened OrderedChoices
  import opened OutputGaps
  import opened EvictionModel
  import opened EvictionPool
  import opened EvictionRound
  import opened EvictionStep
  import opened EvictionIterate

  // ---------------------------------------------------------------------------------------
  // The start

  lemma StartFree(inst: Instance)
    requires inst.Valid()
    ensures FreeIsIdle(Start(inst).free, Start(inst).refs)
  {
    var free := Start(inst).free;
    var whole := Range(inst.capacity);
    ElementsLength(whole);
    if inst.initialFree != [] {
      DistinctByCount(free);
      forall b: nat ensures b in free <==> b < inst.capacity {
        assert b in free <==> b in Elements(free);
        if b < inst.capacity { assert whole[b] == b; }
      }
    } else {
      forall b: nat ensures b in free <==> b < inst.capacity {
        if b < inst.capacity { assert whole[b] == b; }
      }
    }
  }

  lemma {:induction false} NobodyHolds(progress: seq<Progress>, b: nat, n: nat)
    requires n <= |progress| && forall i :: 0 <= i < |progress| ==> progress[i].blocks == []
    ensures Holders(progress, b, n) == 0
  {
    if n > 0 { NobodyHolds(progress, b, n - 1); }
  }

  lemma StartInv(inst: Instance)
    requires inst.Valid()
    ensures Inv(inst, Start(inst))
  {
    var w := Start(inst);
    StartFree(inst);
    forall b | 0 <= b < |w.refs| ensures w.refs[b] == Holders(w.progress, b, |w.progress|) {
      NobodyHolds(w.progress, b, |w.progress|);
    }
    assert PoolInv(w, inst.capacity);
  }

  /** Prompt and output tokens of the first `n` requests. */
  function TokensUpTo(inst: Instance, n: nat): nat
    requires n <= |inst.requests|
  {
    if n == 0 then 0 else TokensUpTo(inst, n - 1) + inst.requests[n - 1].input + inst.requests[n - 1].output
  }

  lemma {:induction false} StartDemand(inst: Instance, n: nat)
    requires n <= |inst.requests| && inst.Valid()
    ensures OpenDemand(inst, Start(inst).progress, n) == TokensUpTo(inst, n) - n
    ensures LateArrivals(inst, 0, n) <= n
  {
    if n > 0 { StartDemand(inst, n - 1); }
  }

  lemma StartLoad(inst: Instance)
    requires inst.Valid()
    ensures var w := Start(inst); |w.progress| == |inst.requests| && Below(Queue(w), |w.progress|) && Load(inst, w) <= TokensUpTo(inst, |inst.requests|)
  {
    StartDemand(inst, |inst.requests|);
  }

  // ---------------------------------------------------------------------------------------
  // replay

  /** The loop of replay from one iteration on; `steps` iterations are over. */
  ghost function Replay(inst: Instance, w: World, script: Option<seq<seq<nat>>>, limits: Option<seq<Limit>>,
                        steps: nat): Result<World>
    requires Inv(inst, w) && (limits.Some? ==> |limits.value| == |inst.requests|)
    decreases Measure(inst, w)
  {
    if Finished(w) then
      if script.Some? && |w.used| != |script.value| then Fails(UnusedActions) else Ok(w)
    else if limits.None? && steps + 1 > 100 * TokensUpTo(inst, |inst.requests|) then Fails(StepBound)
    else
      IterateKeeps(inst, w, script, limits);
      match Iterate(inst, w, script, limits)
      case Ok(next) => MeasureDrops(inst, w, next); Replay(inst, next, script, limits, steps + 1)
      case Choose(c, k) => Choose(c, k)
      case Fails(f) => Fails(f)
  }

  ghost function Measure(inst: Instance, w: World): (m: nat)
    requires Inv(inst, w)
    ensures |w.progress| == |inst.requests| && Below(Queue(w), |w.progress|) && m == Load(inst, w)
  {
    LoadNonnegative(inst, w);
    Load(inst, w)
  }

  lemma MeasureDrops(inst: Instance, w: World, r: World)
    requires Inv(inst, w) && Progressed(inst, w, r)
    ensures Inv(inst, r) && Measure(inst, r) < Measure(inst, w)
  {
    hide Inv;
  }

  /** One turn of the loop of replay. */
  lemma ReplayNext(inst: Instance, w: World, script: Option<seq<seq<nat>>>, limits: Option<seq<Limit>>, steps: nat)
    requires Inv(inst, w) && !Finished(w) && (limits.Some? ==> |limits.value| == |inst.requests|)
    ensures Fitting(inst, Enqueue(inst, w))
    ensures var r := Replay(inst, w, script, limits, steps);
            if limits.None? && steps + 1 > 100 * TokensUpTo(inst, |inst.requests|) then r == Fails(StepBound)
            else
              match Iterate(inst, w, script, limits)
              case Ok(next) => Inv(inst, next) && Progressed(inst, w, next) && r == Replay(inst, next, script, limits, steps + 1)
              case Choose(c, k) => r == Choose(c, k)
              case Fails(f) => r == Fails(f)
  {
    hide Inv, Iterate, Enqueue, Finished;
    IterateKeeps(inst, w, script, limits);
  }

  lemma ReplayDone(inst: Instance, w: World, script: Option<seq<seq<nat>>>, limits: Option<seq<Limit>>, steps: nat)
    requires Inv(inst, w) && Finished(w) && (limits.Some? ==> |limits.value| == |inst.requests|)
    ensures Replay(inst, w, script, limits, steps) ==
            if script.Some? && |w.used| != |script.value| then Fails(UnusedActions) else Ok(w)
  {
    hide Inv, Iterate, Finished;
  }

  /** What can end a replay early: its script, its limits, a missing cost entry. */
  ghost predicate FailsOutside(inst: Instance, r: Result<World>, script: Option<seq<seq<nat>>>, limits: Option<seq<Limit>>) {
    && (r.Fails? ==> r.why == IllegalVictims || r.why == Deadline || r.why == MissingCost || r.why == UnusedActions)
    && (r.Fails? && (r.why == IllegalVictims || r.why == UnusedActions) ==> script.Some?)
    && (r.Fails? && r.why == Deadline ==> limits.Some?) && (r.Fails? && r.why == MissingCost ==> inst.costTable.Some?)
    && (r.Choose? ==> script.Some? && Distinct(r.candidates))
  }

  /** No step bound, no allocation without room, no zero-service cycle, no stuck scheduler: for every instance and script. */
  lemma {:induction false} ReplaySound(inst: Instance, w: World, script: Option<seq<seq<nat>>>,
                                       limits: Option<seq<Limit>>, steps: nat)
    requires Inv(inst, w) && (limits.Some? ==> |limits.value| == |inst.requests|)
    requires steps + Measure(inst, w) <= TokensUpTo(inst, |inst.requests|)
    ensures var r := Replay(inst, w, script, limits, steps);
            && FailsOutside(inst, r, script, limits)
            && (r.Ok? ==> Inv(inst, r.value) && Finished(r.value))
    decreases Measure(inst, w)
  {
    hide Inv, Iterate, Progressed;
    if !Finished(w) {
      StillLoaded(inst, w);
      IterateKeeps(inst, w, script, limits);
      var next := Iterate(inst, w, script, limits);
      if next.Ok? {
        MeasureDrops(inst, w, next.value);
        ReplaySound(inst, next.value, script, limits, steps + 1);
      }
    }
  }

  /** Iterations a replay begins, idle jumps and a last failing one included. */
  ghost function Iterations(inst: Instance, w: World, script: Option<seq<seq<nat>>>, limits: Option<seq<Limit>>): nat
    requires Inv(inst, w) && (limits.Some? ==> |limits.value| == |inst.requests|)
    decreases Measure(inst, w)
  {
    if Finished(w) then 0
    else
      IterateKeeps(inst, w, script, limits);
      match Iterate(inst, w, script, limits)
      case Ok(next) => MeasureDrops(inst, w, next); 1 + Iterations(inst, next, script, limits)
      case Choose(_, _) => 1
      case Fails(_) => 1
  }

  lemma {:induction false} IterationsWithin(inst: Instance, w: World, script: Option<seq<seq<nat>>>, limits: Option<seq<Limit>>)
    requires Inv(inst, w) && (limits.Some? ==> |limits.value| == |inst.requests|)
    ensures Iterations(inst, w, script, limits) <= Measure(inst, w)
    decreases Measure(inst, w)
  {
    hide Inv, Iterate, Progressed;
    if !Finished(w) {
      StillLoaded(inst, w);
      IterateKeeps(inst, w, script, limits);
      var next := Iterate(inst, w, script, limits);
      if next.Ok? {
        MeasureDrops(inst, w, next.value);
        IterationsWithin(inst, next.value, script, limits);
      }
    }
  }

  /** A replay, baseline or scripted, limited or not, has at most as many iterations as there are tokens. */
  lemma IterationsBounded(inst: Instance, script: Option<seq<seq<nat>>>, limits: Option<seq<Limit>>)
    requires inst.Valid() && (limits.Some? ==> |limits.value| == |inst.requests|)
    ensures Inv(inst, Start(inst))
    ensures Iterations(inst, Start(inst), script, limits) <= TokensUpTo(inst, |inst.requests|)
  {
    hide Inv, Start, Iterations;
    StartInv(inst);
    StartLoad(inst);
    IterationsWithin(inst, Start(inst), script, limits);
  }

  lemma StillLoaded(inst: Instance, w: World)
    requires Inv(inst, w) && !Finished(w)
    ensures Measure(inst, w) > 0
  {
    hide Opened;
    LoadNonnegative(inst, w);
  }

  /** A whole replay from the initial cache. */
  ghost function FullReplay(inst: Instance, script: Option<seq<seq<nat>>>, limits: Option<seq<Limit>>): Result<World>
    requires inst.Valid() && (limits.Some? ==> |limits.value| == |inst.requests|)
  {
    StartInv(inst);
    Replay(inst, Start(inst), script, limits, 0)
  }

  /** The stock policy without limits always finishes when batch costs are known; its internal errors are unreachable. */
  lemma BaselineFinishes(inst: Instance)
    requires inst.Valid()
    ensures var r := FullReplay(inst, None, None);
            && FailsOutside(inst, r, None, None)
            && (inst.costTable.None? ==> r.Ok?)
            && (r.Ok? ==> Inv(inst, r.value) && Finished(r.value))
  {
    hide Inv, Start;
    StartInv(inst);
    StartLoad(inst);
    ReplaySound(inst, Start(inst), None, None, 0);
  }

  // ---------------------------------------------------------------------------------------
  // Extending a script

  /**
   How the outcome under `p` decides the outcome under `p + more`: values and failures stay; an open choice stays open
   without more actions, and is an error if the next action is not legal for it.
   */
  ghost predicate Extends<T>(r1: Result<T>, r2: Result<T>, more: seq<seq<nat>>) {
    match r1
    case Ok(_) => r2 == r1
    case Fails(_) => r2 == r1
    case Choose(c, k) =>
      if more == [] then r2 == r1 else !LegalVictims(more[0], c, k) ==> r2 == Fails(IllegalVictims)
  }

  lemma AllocateExtends(w: World, i: nat, count: int, p: seq<seq<nat>>, more: seq<seq<nat>>)
    requires i < |w.progress| && w.used <= p
    ensures Extends(Allocate(w, i, count, Some(p)), Allocate(w, i, count, Some(p + more)), more)
    ensures Allocate(w, i, count, Some(p)).Ok? ==> Allocate(w, i, count, Some(p)).value.used <= p
  {
    hide Keep, Choices, LegalVictims, Mix;
    if |w.used| < |p| { assert (p + more)[|w.used|] == p[|w.used|]; }
    else { assert w.used == p; if more != [] { assert (p + more)[|p|] == more[0]; } }
  }

  lemma GrowExtends(st: Round, i: nat, n: int, need: int, prefill: bool, p: seq<seq<nat>>, more: seq<seq<nat>>)
    requires i < |st.world.progress| && st.world.used <= p
    ensures Extends(Grow(st, i, n, need, prefill, Some(p)), Grow(st, i, n, need, prefill, Some(p + more)), more)
    ensures Grow(st, i, n, need, prefill, Some(p)).Ok? ==> Grow(st, i, n, need, prefill, Some(p)).value.world.used <= p
  {
    hide Allocate, LegalVictims;
    AllocateExtends(st.world, i, need, p, more);
  }

  lemma {:induction false} MakeRoomUsed(st: Round, i: nat, need: int)
    requires Listing(st.world)
    ensures MakeRoom(st, i, need).world.used == st.world.used
    decreases |st.world.running|
  {
    if need > |st.world.free| && st.world.running != [] {
      var next := PreemptLast(st);
      if st.world.running[|st.world.running| - 1] != i { MakeRoomUsed(next, i, need); }
    }
  }

  lemma RunOneExtends(inst: Instance, st: Round, i: nat, p: seq<seq<nat>>, more: seq<seq<nat>>)
    requires Fitting(inst, st.world) && i < |inst.requests| && st.world.used <= p
    ensures Extends(RunOne(inst, st, i, Some(p)), RunOne(inst, st, i, Some(p + more)), more)
    ensures RunOne(inst, st, i, Some(p)).Ok? ==> RunOne(inst, st, i, Some(p)).value.world.used <= p
  {
    hide Grow, MakeRoom, LegalVictims, Growth, Tokens;
    if i in st.world.running && st.budget != 0 {
      var n := Tokens(inst, st, i);
      var need := Growth(inst, st.world, i, n);
      MakeRoomUsed(st, i, need);
      GrowExtends(MakeRoom(st, i, need), i, n, need, st.world.progress[i].computed < inst.requests[i].input, p, more);
    }
  }

  lemma {:induction false} RunAllExtends(inst: Instance, st: Round, todo: seq<nat>, p: seq<seq<nat>>, more: seq<seq<nat>>)
    requires Fitting(inst, st.world) && Below(todo, |inst.requests|) && st.world.used <= p
    ensures Extends(RunAll(inst, st, todo, Some(p)), RunAll(inst, st, todo, Some(p + more)), more)
    ensures RunAll(inst, st, todo, Some(p)).Ok? ==> RunAll(inst, st, todo, Some(p)).value.world.used <= p
    decreases |todo|
  {
    hide RunOne, LegalVictims, Fitting;
    if todo != [] {
      RunOneExtends(inst, st, todo[0], p, more);
      var one := RunOne(inst, st, todo[0], Some(p));
      if one.Ok? { RunAllExtends(inst, one.value, todo[1..], p, more); }
    }
  }

  lemma AdmitOneExtends(inst: Instance, st: Round, hits: seq<nat>, p: seq<seq<nat>>, more: seq<seq<nat>>)
    requires Fitting(inst, st.world) && st.world.waiting != [] && st.world.used <= p
    ensures Extends(AdmitOne(inst, st, hits, Some(p)), AdmitOne(inst, st, hits, Some(p + more)), more)
    ensures AdmitOne(inst, st, hits, Some(p)).Ok? ==> AdmitOne(inst, st, hits, Some(p)).value.world.used <= p
  {
    hide Grow, LegalVictims, Growth;
    ListingParts(st.world);
    var i := st.world.waiting[0];
    var held := Hold(inst, st.world, i, hits);
    var n := FirstChunk(inst, st.budget, held, i);
    GrowExtends(st.(world := held), i, n, Growth(inst, held, i, n), true, p, more);
  }

  lemma {:induction false} AdmitAllExtends(inst: Instance, st: Round, p: seq<seq<nat>>, more: seq<seq<nat>>)
    requires Fitting(inst, st.world) && st.world.used <= p
    ensures Extends(AdmitAll(inst, st, Some(p)), AdmitAll(inst, st, Some(p + more)), more)
    ensures AdmitAll(inst, st, Some(p)).Ok? ==> AdmitAll(inst, st, Some(p)).value.world.used <= p
    decreases |st.world.waiting|
  {
    hide AdmitOne, LegalVictims, PromptFits, Hits;
    ListingParts(st.world);
    if st.world.waiting != [] && st.budget != 0 && |st.world.running| < inst.maxSequences && PromptFits(inst, st.world) {
      var hits := Hits(inst.blockSize, inst.requests[st.world.waiting[0]], st.world.identity, 0);
      AdmitOneExtends(inst, st, hits, p, more);
      var one := AdmitOne(inst, st, hits, Some(p));
      if one.Ok? { AdmitAllExtends(inst, one.value, p, more); }
    }
  }

  lemma ScheduleExtends(inst: Instance, w: World, p: seq<seq<nat>>, more: seq<seq<nat>>)
    requires Fitting(inst, w) && w.used <= p
    ensures Extends(Schedule(inst, w, Some(p)), Schedule(inst, w, Some(p + more)), more)
    ensures Schedule(inst, w, Some(p)).Ok? ==> Schedule(inst, w, Some(p)).value.world.used <= p
  {
    hide RunAll, AdmitAll, LegalVictims;
    ListingParts(w);
    var st := Round(w, inst.tokenBudget, [], false);
    RunAllExtends(inst, st, w.running, p, more);
    var run := RunAll(inst, st, w.running, Some(p));
    if run.Ok? { AdmitAllExtends(inst, run.value, p, more); }
  }

  lemma SettleUsed(inst: Instance, st: Round, limits: Option<seq<Limit>>)
    requires RoundInv(inst, st) && (limits.Some? ==> |limits.value| == |inst.requests|)
    ensures inst.blockSize > 0 && |st.world.progress| == |inst.requests|
    ensures var r := Settle(inst, st, limits); !r.Choose? && (r.Ok? ==> r.value.used == st.world.used)
  {
    hide Settled, Late, Duration, Future, Servable, RoundInv, Opened, AllContinue, FirstCome, Left, Queue, Least;
    ServableRound(inst, st);
    if st.services != [] && Duration(inst, st.services).Some? {
      SettledParts(inst, st, st.world.time + Duration(inst, st.services).value);
    }
  }

  lemma IterateExtends(inst: Instance, w: World, limits: Option<seq<Limit>>, p: seq<seq<nat>>, more: seq<seq<nat>>)
    requires Inv(inst, w) && (limits.Some? ==> |limits.value| == |inst.requests|) && w.used <= p
    ensures Fitting(inst, Enqueue(inst, w))
    ensures Extends(Iterate(inst, w, Some(p), limits), Iterate(inst, w, Some(p + more), limits), more)
    ensures Iterate(inst, w, Some(p), limits).Ok? ==> Iterate(inst, w, Some(p), limits).value.used <= p
  {
    hide Schedule, Settle, LegalVictims, Inv, Opened, RoundInv;
    EnqueueLoad(inst, w);
    ScheduleKeeps(inst, Enqueue(inst, w), Some(p));
    ScheduleExtends(inst, Enqueue(inst, w), p, more);
    var plan := Schedule(inst, Enqueue(inst, w), Some(p));
    if plan.Ok? { SettleUsed(inst, plan.value, limits); }
  }

  /** A longer script: a finished replay has actions left over, a failed one fails, an open choice needs a legal action. */
  lemma {:induction false} ReplayExtends(inst: Instance, w: World, limits: Option<seq<Limit>>, steps: nat,
                                         p: seq<seq<nat>>, more: seq<seq<nat>>)
    requires Inv(inst, w) && (limits.Some? ==> |limits.value| == |inst.requests|) && w.used <= p
    ensures var r1, r2 := Replay(inst, w, Some(p), limits, steps), Replay(inst, w, Some(p + more), limits, steps);
            && (r1.Ok? && more != [] ==> !r2.Ok?) && (r1.Fails? ==> !r2.Ok?)
            && (r1.Choose? ==> Extends(r1, r2, more))
    decreases Measure(inst, w)
  {
    hide Inv, Iterate, LegalVictims, Progressed;
    if !Finished(w) && !(limits.None? && steps + 1 > 100 * TokensUpTo(inst, |inst.requests|)) {
      IterateKeeps(inst, w, Some(p), limits);
      IterateExtends(inst, w, limits, p, more);
      var next := Iterate(inst, w, Some(p), limits);
      if next.Ok? {
        MeasureDrops(inst, w, next.value);
        ReplayExtends(inst, next.value, limits, steps + 1, p, more);
      }
    }
  }

  // ---------------------------------------------------------------------------------------
  // One legal action more

  /** The script `s` is used up, or it is `q` and one action more, legal for the choice left open by `q`. */
  ghost predicate Continuing<T>(used: seq<seq<nat>>, r: Result<T>, q: seq<seq<nat>>, x: seq<nat>, s: seq<seq<nat>>) {
    used == s || (s == q + [x] && used <= q && r.Choose? && LegalVictims(x, r.candidates, r.count))
  }

  /** Then the script is never an error. */
  ghost predicate NotIllegal<T>(r: Result<T>) {
    r.Fails? ==> r.why != IllegalVictims
  }

  lemma AllocateContinues(w: World, i: nat, count: int, q: seq<seq<nat>>, x: seq<nat>, s: seq<seq<nat>>)
    requires i < |w.progress| && Continuing(w.used, Allocate(w, i, count, Some(q)), q, x, s)
    ensures var r := Allocate(w, i, count, Some(s)); NotIllegal(r) && (r.Ok? ==> r.value.used == s)
  {
    hide Keep, Choices, LegalVictims, Mix;
    if w.used != s {
      assert w.used == q;
      assert s[|w.used|] == x;
    }
  }

  lemma GrowContinues(st: Round, i: nat, n: int, need: int, prefill: bool, q: seq<seq<nat>>, x: seq<nat>, s: seq<seq<nat>>)
    requires i < |st.world.progress| && Continuing(st.world.used, Grow(st, i, n, need, prefill, Some(q)), q, x, s)
    ensures var r := Grow(st, i, n, need, prefill, Some(s)); NotIllegal(r) && (r.Ok? ==> r.value.world.used == s)
  {
    hide Allocate, LegalVictims;
    AllocateContinues(st.world, i, need, q, x, s);
  }

  lemma RunOneContinues(inst: Instance, st: Round, i: nat, q: seq<seq<nat>>, x: seq<nat>, s: seq<seq<nat>>)
    requires Fitting(inst, st.world) && i < |inst.requests| && Continuing(st.world.used, RunOne(inst, st, i, Some(q)), q, x, s)
    ensures var r := RunOne(inst, st, i, Some(s)); NotIllegal(r) && (r.Ok? ==> r.value.world.used == s)
  {
    hide Grow, MakeRoom, LegalVictims, Growth, Tokens;
    if i in st.world.running && st.budget != 0 {
      var n := Tokens(inst, st, i);
      var need := Growth(inst, st.world, i, n);
      MakeRoomUsed(st, i, need);
      if i in MakeRoom(st, i, need).world.running {
        GrowContinues(MakeRoom(st, i, need), i, n, need, st.world.progress[i].computed < inst.requests[i].input, q, x, s);
      }
    }
  }

  lemma {:induction false} RunAllContinues(inst: Instance, st: Round, todo: seq<nat>, q: seq<seq<nat>>, x: seq<nat>,
                                           s: seq<seq<nat>>)
    requires Fitting(inst, st.world) && Below(todo, |inst.requests|) && Continuing(st.world.used, RunAll(inst, st, todo, Some(q)), q, x, s)
    ensures var r := RunAll(inst, st, todo, Some(s)); NotIllegal(r) && (r.Ok? ==> r.value.world.used == s)
    decreases |todo|
  {
    hide RunOne, LegalVictims, Fitting;
    if todo != [] {
      if st.world.used != s { RunOneExtends(inst, st, todo[0], q, [x]); }
      var one := RunOne(inst, st, todo[0], Some(q));
      if st.world.used == s || one.Choose? { RunOneContinues(inst, st, todo[0], q, x, s); }
      var next := RunOne(inst, st, todo[0], Some(s));
      if next.Ok? { RunAllContinues(inst, next.value, todo[1..], q, x, s); }
    }
  }

  lemma AdmitOneContinues(inst: Instance, st: Round, hits: seq<nat>, q: seq<seq<nat>>, x: seq<nat>, s: seq<seq<nat>>)
    requires Fitting(inst, st.world) && st.world.waiting != [] && Continuing(st.world.used, AdmitOne(inst, st, hits, Some(q)), q, x, s)
    ensures var r := AdmitOne(inst, st, hits, Some(s)); NotIllegal(r) && (r.Ok? ==> r.value.world.used == s)
  {
    hide Grow, LegalVictims, Growth;
    ListingParts(st.world);
    var i := st.world.waiting[0];
    var held := Hold(inst, st.world, i, hits);
    var n := FirstChunk(inst, st.budget, held, i);
    GrowContinues(st.(world := held), i, n, Growth(inst, held, i, n), true, q, x, s);
  }

  lemma {:induction false} AdmitAllContinues(inst: Instance, st: Round, q: seq<seq<nat>>, x: seq<nat>, s: seq<seq<nat>>)
    requires Fitting(inst, st.world) && Continuing(st.world.used, AdmitAll(inst, st, Some(q)), q, x, s)
    ensures var r := AdmitAll(inst, st, Some(s)); NotIllegal(r) && (r.Ok? ==> r.value.world.used == s)
    decreases |st.world.waiting|
  {
    hide AdmitOne, LegalVictims, PromptFits, Hits;
    ListingParts(st.world);
    if st.world.waiting != [] && st.budget != 0 && |st.world.running| < inst.maxSequences && PromptFits(inst, st.world) {
      var hits := Hits(inst.blockSize, inst.requests[st.world.waiting[0]], st.world.identity, 0);
      if st.world.used != s { AdmitOneExtends(inst, st, hits, q, [x]); }
      var one := AdmitOne(inst, st, hits, Some(q));
      if st.world.used == s || one.Choose? { AdmitOneContinues(inst, st, hits, q, x, s); }
      var next := AdmitOne(inst, st, hits, Some(s));
      if next.Ok? { AdmitAllContinues(inst, next.value, q, x, s); }
    }
  }

  lemma ScheduleContinues(inst: Instance, w: World, q: seq<seq<nat>>, x: seq<nat>, s: seq<seq<nat>>)
    requires Fitting(inst, w) && Continuing(w.used, Schedule(inst, w, Some(q)), q, x, s)
    ensures var r := Schedule(inst, w, Some(s)); NotIllegal(r) && (r.Ok? ==> r.value.world.used == s)
  {
    hide RunAll, AdmitAll, LegalVictims;
    ListingParts(w);
    var st := Round(w, inst.tokenBudget, [], false);
    if w.used != s { RunAllExtends(inst, st, w.running, q, [x]); }
    var run := RunAll(inst, st, w.running, Some(q));
    if w.used == s || run.Choose? { RunAllContinues(inst, st, w.running, q, x, s); }
    var next := RunAll(inst, st, w.running, Some(s));
    if next.Ok? && !next.value.preempted { AdmitAllContinues(inst, next.value, q, x, s); }
  }

  lemma IterateContinues(inst: Instance, w: World, limits: Option<seq<Limit>>, q: seq<seq<nat>>, x: seq<nat>, s: seq<seq<nat>>)
    requires Inv(inst, w) && (limits.Some? ==> |limits.value| == |inst.requests|)
    requires Fitting(inst, Enqueue(inst, w)) && Continuing(w.used, Iterate(inst, w, Some(q), limits), q, x, s)
    ensures var r := Iterate(inst, w, Some(s), limits); NotIllegal(r) && (r.Ok? ==> r.value.used == s)
  {
    hide Schedule, Settle, LegalVictims, Inv, Opened, RoundInv;
    EnqueueLoad(inst, w);
    var e := Enqueue(inst, w);
    assert e.used == w.used;
    ScheduleKeeps(inst, e, Some(s));
    ScheduleKeeps(inst, e, Some(q));
    var plan := Schedule(inst, e, Some(q));
    if plan.Ok? { SettleUsed(inst, plan.value, limits); }
    ScheduleContinues(inst, e, q, x, s);
    var next := Schedule(inst, e, Some(s));
    if next.Ok? {
      SettleUsed(inst, next.value, limits);
      SettleLegal(inst, next.value, limits);
    }
  }

  lemma SettleLegal(inst: Instance, st: Round, limits: Option<seq<Limit>>)
    requires inst.blockSize > 0 && |st.world.progress| == |inst.requests| && (limits.Some? ==> |limits.value| == |inst.requests|)
    ensures NotIllegal(Settle(inst, st, limits))
  {
    hide Settled, Late, Duration, Servable, Future;
  }

  /** Replaying a script that ends with a legal answer to the last open choice is never a script error. */
  lemma {:induction false} ReplayContinues(inst: Instance, w: World, limits: Option<seq<Limit>>, steps: nat,
                                           q: seq<seq<nat>>, x: seq<nat>, s: seq<seq<nat>>)
    requires Inv(inst, w) && (limits.Some? ==> |limits.value| == |inst.requests|)
    requires Continuing(w.used, Replay(inst, w, Some(q), limits, steps), q, x, s)
    ensures var r := Replay(inst, w, Some(s), limits, steps);
            r.Fails? ==> r.why != IllegalVictims && r.why != UnusedActions
    decreases Measure(inst, w)
  {
    hide Inv, Iterate, LegalVictims, Progressed;
    if !Finished(w) && !(limits.None? && steps + 1 > 100 * TokensUpTo(inst, |inst.requests|)) {
      IterateKeeps(inst, w, Some(q), limits);
      IterateKeeps(inst, w, Some(s), limits);
      if w.used != s { IterateExtends(inst, w, limits, q, [x]); }
      var one := Iterate(inst, w, Some(q), limits);
      if w.used == s || one.Choose? { IterateContinues(inst, w, limits, q, x, s); }
      var next := Iterate(inst, w, Some(s), limits);
      if next.Ok? {
        MeasureDrops(inst, w, next.value);
        ReplayContinues(inst, next.value, limits, steps + 1, q, x, s);
      }
    }
  }
}
