/** What one call of schedule guarantees beyond the invariant: progress at the head, fairness of preemption. */
module ScheduleTheorems {
  import opened Common
  import opened BlockPool
  import opened Scheduling
  import opened ScheduleSteps
  import opened ScheduleLoops

  /** `x` keeps what it has computed and is not preempted. */
  ghost predicate Kept(s: EngineState, t: EngineState, x: nat) {
    && x in s.prog && x in t.prog
    && t.prog[x].preempted == s.prog[x].preempted && t.prog[x].computed >= s.prog[x].computed
  }

  ghost predicate AllKept(s: EngineState, t: EngineState) {
    forall x :: x in s.prog ==> Kept(s, t, x)
  }

  ghost predicate PlannedKept(s: EngineState, t: Run) {
    forall j :: 0 <= j < |t.plan| ==> Kept(s, t.s, t.plan[j].rid)
  }

  /** The first loop admits nobody. */
  ghost predicate NoneAdmitted(s: EngineState, t: EngineState) {
    && s.admitted == t.admitted
    && forall x :: x in s.prog ==> x in t.prog && t.prog[x].engineHit == s.prog[x].engineHit
  }

  lemma SameTrans(s: EngineState, t: EngineState, u: EngineState)
    requires SameOutputs(s, t) && SameOutputs(t, u)
    ensures SameOutputs(s, u)
    ensures NoneAdmitted(s, t) && NoneAdmitted(t, u) ==> NoneAdmitted(s, u)
    ensures AllKept(s, t) && AllKept(t, u) ==> AllKept(s, u)
  {
  }

  /** Planned requests are the first ones in dispatch order. */
  lemma PlanPositions(trace: seq<Request>, cfg: Config, r: Run)
    requires Planning(trace, cfg, r)
    ensures |r.plan| <= |r.s.running| && Distinct(Order(r.s)) && |r.s.running| <= |Order(r.s)|
    ensures forall j :: 0 <= j < |r.plan| ==> r.plan[j].rid == r.s.running[j] && r.plan[j].rid == Order(r.s)[j]
    ensures forall j :: 0 <= j < |Order(r.s)| ==> Order(r.s)[j] in r.s.prog
    ensures forall j :: 0 <= j < |r.s.running| ==> Order(r.s)[j] == r.s.running[j]
  {
    hide Owned, Records, OwnKeys, AllComplete;
  }

  lemma PlanNextKeeps(trace: seq<Request>, cfg: Config, r: Run)
    requires Planning(trace, cfg, r) && Unplanned(r) && NextFits(trace, cfg, r)
    ensures var t := PlanNext(trace, cfg, r);
            SameOutputs(r.s, t.s) && NoneAdmitted(r.s, t.s) && AllKept(r.s, t.s) && t.preempted == r.preempted
  {
    hide Inv, AllComplete, Planning;
    PlanNextOutputs(trace, cfg, r);
    hide GrowNext;
  }

  lemma EvictKeeps(trace: seq<Request>, cfg: Config, r: Run)
    requires Planning(trace, cfg, r) && |r.plan| < |r.s.running|
    ensures var t := Evict(trace, cfg, r);
            SameOutputs(r.s, t.s) && NoneAdmitted(r.s, t.s)
            && forall x :: x in r.s.prog && x != r.s.running[|r.s.running| - 1] ==> Kept(r.s, t.s, x)
  {
    hide Inv, AllComplete, Planning;
    EvictOutputs(trace, cfg, r);
    hide PreemptTail;
  }

  lemma {:induction false} RunLoopOutputs(trace: seq<Request>, cfg: Config, r: Run)
    requires Planning(trace, cfg, r)
    ensures var t := RunLoop(trace, cfg, r); SameOutputs(r.s, t.s) && NoneAdmitted(r.s, t.s)
    decreases |r.s.running| - |r.plan|
  {
    RunLoopSteps(trace, cfg, r);
    hide Planning, NextFits, PlanNext, Evict, Order, NextTokens, SameOutputs, NoneAdmitted, AllKept, RunLoop;
    if !Unplanned(r) {
      assert SameOutputs(r.s, r.s) && NoneAdmitted(r.s, r.s) by { SameRefl(r.s); }
    } else if NextFits(trace, cfg, r) {
      PlanNextKeeps(trace, cfg, r);
      var t := PlanNext(trace, cfg, r);
      RunLoopOutputs(trace, cfg, t);
      SameTrans(r.s, t.s, RunLoop(trace, cfg, t).s);
    } else {
      EvictKeeps(trace, cfg, r);
      if |r.s.running| != |r.plan| + 1 {
        var t := Evict(trace, cfg, r);
        RunLoopOutputs(trace, cfg, t);
        SameTrans(r.s, t.s, RunLoop(trace, cfg, t).s);
      }
    }
  }

  lemma SameRefl(s: EngineState)
    ensures SameOutputs(s, s) && NoneAdmitted(s, s) && AllKept(s, s)
  {
  }

  /** A request planned by `t`, which runs fewer requests than `r`, is not the tail of `r`. */
  lemma PlannedNotTail(trace: seq<Request>, cfg: Config, r: Run, t: Run)
    requires Planning(trace, cfg, r) && Planning(trace, cfg, t)
    requires Order(t.s) == Order(r.s) && |t.s.running| < |r.s.running|
    ensures forall j :: 0 <= j < |t.plan| ==>
              t.plan[j].rid in r.s.prog && t.plan[j].rid != r.s.running[|r.s.running| - 1]
  {
    PlanPositions(trace, cfg, t);
    PlanPositions(trace, cfg, r);
    hide Planning, Order;
  }

  lemma KeptTrans(r: EngineState, s: EngineState, t: Run)
    requires PlannedKept(s, t)
    ensures (forall j :: 0 <= j < |t.plan| ==> Kept(r, s, t.plan[j].rid)) ==> PlannedKept(r, t)
    ensures AllKept(r, s) && SameOutputs(r, s) ==> PlannedKept(r, t) && (AllKept(s, t.s) ==> AllKept(r, t.s))
  {
  }

  /** Planned requests are kept; without a preemption everything is. */
  ghost predicate LoopKept(r: Run, t: Run) {
    PlannedKept(r.s, t) && (!t.preempted ==> AllKept(r.s, t.s)) && (r.preempted ==> t.preempted)
  }

  lemma GrowThenKept(trace: seq<Request>, cfg: Config, r: Run, u: Run)
    requires Planning(trace, cfg, r) && Unplanned(r) && NextFits(trace, cfg, r)
    requires LoopKept(PlanNext(trace, cfg, r), u)
    ensures LoopKept(r, u)
  {
    hide Planning, NextFits, PlanNext, AllKept, PlannedKept, SameOutputs;
    PlanNextKeeps(trace, cfg, r);
    KeptTrans(r.s, PlanNext(trace, cfg, r).s, u);
  }

  lemma EvictThenKept(trace: seq<Request>, cfg: Config, r: Run, u: Run)
    requires Planning(trace, cfg, r) && |r.plan| < |r.s.running| && Planning(trace, cfg, u)
    requires Order(u.s) == Order(r.s) && |u.s.running| < |r.s.running|
    requires LoopKept(Evict(trace, cfg, r), u)
    ensures LoopKept(r, u)
  {
    hide Planning, Evict, AllKept, PlannedKept, SameOutputs, Order, Kept;
    EvictKeeps(trace, cfg, r);
    PlannedNotTail(trace, cfg, r, u);
    KeptTrans(r.s, Evict(trace, cfg, r).s, u);
  }

  lemma LoopKeptRefl(trace: seq<Request>, cfg: Config, r: Run)
    requires Planning(trace, cfg, r)
    ensures LoopKept(r, r)
  {
    SameRefl(r.s);
    PlannedIn(trace, cfg, r, r.s);
  }

  lemma {:induction false} RunLoopKeeps(trace: seq<Request>, cfg: Config, r: Run)
    requires Planning(trace, cfg, r)
    ensures LoopKept(r, RunLoop(trace, cfg, r))
    decreases |r.s.running| - |r.plan|
  {
    RunLoopSteps(trace, cfg, r);
    hide Planning, NextFits, PlanNext, Evict, Order, NextTokens, LoopKept, RunLoop;
    if !Unplanned(r) {
      LoopKeptRefl(trace, cfg, r);
    } else if NextFits(trace, cfg, r) {
      RunLoopKeeps(trace, cfg, PlanNext(trace, cfg, r));
      GrowThenKept(trace, cfg, r, RunLoop(trace, cfg, r));
    } else {
      var t := Evict(trace, cfg, r);
      if |r.s.running| == |r.plan| + 1 { LoopKeptRefl(trace, cfg, t); }
      else { RunLoopKeeps(trace, cfg, t); }
      EvictThenKept(trace, cfg, r, RunLoop(trace, cfg, r));
    }
  }

  lemma AdmitHeadKeeps(trace: seq<Request>, cfg: Config, r: Run)
    requires Admitting(trace, cfg, r) && Open(cfg, r) && HeadOffer(trace, cfg, r).fits
    ensures SameOutputs(r.s, AdmitHead(trace, cfg, r).s) && AllKept(r.s, AdmitHead(trace, cfg, r).s)
  {
    AdmitHeadOutputs(trace, cfg, r);
    WaitingStart(trace, cfg, r);
    hide Planning, AdmitHead, HeadOffer;
  }

  lemma {:induction false} AdmitLoopOutputs(trace: seq<Request>, cfg: Config, r: Run)
    requires Admitting(trace, cfg, r)
    ensures SameOutputs(r.s, AdmitLoop(trace, cfg, r).s) && AllKept(r.s, AdmitLoop(trace, cfg, r).s)
    decreases |r.s.waiting|
  {
    hide Admitting, Open, HeadOffer, AdmitHead, SameOutputs, AllKept, NoneAdmitted;
    if Open(cfg, r) && HeadOffer(trace, cfg, r).fits {
      AdmitHeadKeeps(trace, cfg, r);
      var t := AdmitHead(trace, cfg, r);
      AdmitLoopOutputs(trace, cfg, t);
      SameTrans(r.s, t.s, AdmitLoop(trace, cfg, t).s);
    } else {
      SameRefl(r.s);
    }
  }

  lemma WaitingStart(trace: seq<Request>, cfg: Config, r: Run)
    requires Planning(trace, cfg, r) && r.s.waiting != []
    ensures r.s.waiting[0] in r.s.prog && r.s.prog[r.s.waiting[0]].computed == 0
  {
    hide Owned, OwnKeys, AllComplete, Plans;
  }

  /**
   schedule produces no output and loses none; requests in the plan are not preempted in the same step, so
   nothing planned is ever taken back.
   */
  lemma ScheduleOutputs(trace: seq<Request>, cfg: Config, s: EngineState)
    requires Usable(trace, cfg) && Inv(trace, cfg, s, 0, [])
    ensures SameOutputs(s, Schedule(trace, cfg, s).s) && PlannedKept(s, Schedule(trace, cfg, s))
  {
    var r := Run(s, [], cfg.tokenBudget, false);
    EmptyPlan(trace, cfg, s);
    RunLoopOutputs(trace, cfg, r);
    RunLoopKeeps(trace, cfg, r);
    var t := RunLoop(trace, cfg, r);
    if !t.preempted {
      AdmitLoopOutputs(trace, cfg, t);
      var u := AdmitLoop(trace, cfg, t);
      SameTrans(s, t.s, u.s);
      PlannedIn(trace, cfg, u, s);
    }
  }

  lemma PlannedIn(trace: seq<Request>, cfg: Config, u: Run, s: EngineState)
    requires Planning(trace, cfg, u) && Order(u.s) == Order(s)
    requires SameOutputs(s, u.s) && AllKept(s, u.s)
    ensures PlannedKept(s, u)
  {
    PlanPositions(trace, cfg, u);
    hide Planning, Order;
    forall j | 0 <= j < |u.plan| ensures Kept(s, u.s, u.plan[j].rid) {
      assert u.plan[j].rid == Order(u.s)[j];
      assert u.plan[j].rid in u.s.prog;
      assert u.plan[j].rid in s.prog;
    }
  }

  lemma EmptyPlan(trace: seq<Request>, cfg: Config, s: EngineState)
    requires Usable(trace, cfg) && Inv(trace, cfg, s, 0, [])
    ensures AllComplete(trace, s, []) && Planning(trace, cfg, Run(s, [], cfg.tokenBudget, false))
  {
  }

  // ---------------------------------------------------------------------------------------
  // Progress

  /** The request at the head of the order is served. */
  ghost predicate HeadServed(s: EngineState, t: Run) {
    t.plan != [] && Order(s) != [] && t.plan[0].rid == Order(s)[0]
  }

  /** Alone in the pool, a request that fits always finds its blocks. */
  lemma AloneFits(trace: seq<Request>, cfg: Config, r: Run)
    requires Planning(trace, cfg, r) && Unplanned(r) && FitAlone(trace, cfg) && |r.s.running| == 1
    ensures NextFits(trace, cfg, r)
  {
    var x := r.s.running[0];
    assert r.s.running[..0] == [];
    assert Held(r.s.running, r.s.prog) == multiset(r.s.prog[x].table);
    hide OwnKeys, AllComplete, Held;
    FreeWhenAlone(r.s.pool, r.s.prog[x].table);
    assert r.s.prog[x].computed + NextTokens(trace, cfg, r) <= Total(trace[x]);
  }

  lemma {:induction false} RunLoopServes(trace: seq<Request>, cfg: Config, r: Run)
    requires Planning(trace, cfg, r) && FitAlone(trace, cfg) && Unplanned(r) && r.plan == []
    ensures RunLoop(trace, cfg, r).plan != []
    decreases |r.s.running|
  {
    if |r.s.running| == 1 { AloneFits(trace, cfg, r); }
    RunLoopSteps(trace, cfg, r);
    hide Planning, NextFits, PlanNext, Evict, Order, NextTokens, FitAlone, RunLoop;
    if NextFits(trace, cfg, r) {
      assert PlanNext(trace, cfg, r).plan <= RunLoop(trace, cfg, PlanNext(trace, cfg, r)).plan;
    } else {
      EvictBudget(trace, cfg, r);
      RunLoopServes(trace, cfg, Evict(trace, cfg, r));
    }
  }

  /** With nothing running, the head of the queue is admitted. */
  lemma IdleFits(trace: seq<Request>, cfg: Config, r: Run)
    requires Admitting(trace, cfg, r) && Open(cfg, r) && FitAlone(trace, cfg) && r.s.running == []
    ensures HeadOffer(trace, cfg, r).fits
  {
    assert Held(r.s.running, r.s.prog) == multiset([]);
    var o := HeadOffer(trace, cfg, r);
    var x := r.s.waiting[0];
    assert |o.blocks| * BLOCK + o.tokens <= Total(trace[x]);
    hide OwnKeys, AllComplete, Held;
    FreeWhenAlone(r.s.pool, []);
    assert CeilBlocks(|o.blocks| * BLOCK + o.tokens) <= cfg.numBlocks;
  }

  lemma AdmitLoopServes(trace: seq<Request>, cfg: Config, r: Run)
    requires Admitting(trace, cfg, r) && Open(cfg, r) && FitAlone(trace, cfg) && r.s.running == []
    ensures AdmitLoop(trace, cfg, r).plan != []
  {
    IdleFits(trace, cfg, r);
    hide Admitting, HeadOffer, AdmitHead;
    assert AdmitHead(trace, cfg, r).plan <= AdmitLoop(trace, cfg, AdmitHead(trace, cfg, r)).plan;
  }

  /** With unfinished work, schedule always serves the head of the order; the plan is never empty. */
  lemma ScheduleServesHead(trace: seq<Request>, cfg: Config, s: EngineState)
    requires Usable(trace, cfg) && Inv(trace, cfg, s, 0, []) && FitAlone(trace, cfg) && Order(s) != []
    ensures HeadServed(s, Schedule(trace, cfg, s))
  {
    var r := Run(s, [], cfg.tokenBudget, false);
    EmptyPlan(trace, cfg, s);
    var u := Schedule(trace, cfg, s);
    ScheduleNonEmpty(trace, cfg, s);
    PlanPositions(trace, cfg, u.(budget := 0));
  }

  lemma ScheduleNonEmpty(trace: seq<Request>, cfg: Config, s: EngineState)
    requires Usable(trace, cfg) && Inv(trace, cfg, s, 0, []) && FitAlone(trace, cfg) && Order(s) != []
    ensures Schedule(trace, cfg, s).plan != []
  {
    var r := Run(s, [], cfg.tokenBudget, false);
    EmptyPlan(trace, cfg, s);
    hide Inv, AllComplete, FitAlone, Planning;
    if s.running != [] {
      RunLoopServes(trace, cfg, r);
      var t := RunLoop(trace, cfg, r);
      if !t.preempted { assert t.plan <= AdmitLoop(trace, cfg, t).plan; }
    } else {
      assert RunLoop(trace, cfg, r) == r;
      AdmitLoopServes(trace, cfg, r);
    }
  }

  // ---------------------------------------------------------------------------------------
  // The step as the cost model sees it

  /** Prefill chunks as (new tokens, context), then total context and number of decoding requests. */
  datatype Batch = Batch(chunks: seq<(nat, nat)>, decodeCtx: nat, decodes: nat)

  predicate PlanKnown(trace: seq<Request>, s: EngineState, plan: seq<Chunk>) {
    forall j :: 0 <= j < |plan| ==> plan[j].rid in s.prog && plan[j].rid < |trace|
  }

  function BatchOf(trace: seq<Request>, s: EngineState, plan: seq<Chunk>): Batch
    requires PlanKnown(trace, s, plan)
  {
    if plan == [] then Batch([], 0, 0)
    else
      var n := |plan| - 1;
      var b, c, p := BatchOf(trace, s, plan[..n]), plan[n], s.prog[plan[n].rid];
      var length := trace[c.rid].inputLen + p.generated;
      if p.generated > 0 && length - p.computed == 1
      then Batch(b.chunks, b.decodeCtx + length, b.decodes + 1)
      else Batch(b.chunks + [(c.tokens, p.computed)], b.decodeCtx, b.decodes)
  }

  lemma PlanIsKnown(trace: seq<Request>, cfg: Config, s: EngineState, plan: seq<Chunk>)
    requires Inv(trace, cfg, s, 0, plan)
    ensures PlanKnown(trace, s, plan)
  {
    hide Owned, OwnKeys, Records;
  }

  function PlanTokens(plan: seq<Chunk>): nat {
    if plan == [] then 0 else PlanTokens(plan[..|plan| - 1]) + plan[|plan| - 1].tokens
  }

  function BatchTokens(chunks: seq<(nat, nat)>): nat {
    if chunks == [] then 0 else BatchTokens(chunks[..|chunks| - 1]) + chunks[|chunks| - 1].0
  }

  /** The cost model sees every planned token exactly once: decodes bring one token each. */
  lemma {:induction false} BatchConserves(trace: seq<Request>, s: EngineState, plan: seq<Chunk>)
    requires PlanKnown(trace, s, plan)
    requires forall j :: 0 <= j < |plan| ==>
               1 <= plan[j].tokens <= trace[plan[j].rid].inputLen + s.prog[plan[j].rid].generated - s.prog[plan[j].rid].computed
    ensures var b := BatchOf(trace, s, plan);
            BatchTokens(b.chunks) + b.decodes == PlanTokens(plan) && |b.chunks| + b.decodes == |plan|
  {
    if plan != [] {
      var n := |plan| - 1;
      BatchConserves(trace, s, plan[..n]);
      var b, c := BatchOf(trace, s, plan[..n]), plan[n];
      assert (b.chunks + [(c.tokens, s.prog[c.rid].computed)])[..|b.chunks|] == b.chunks;
    }
  }

  /** Positions in the plan, in plan order. */
  ghost predicate Positions(js: seq<nat>, n: nat) {
    Below(js, n) && forall i, j :: 0 <= i < j < |js| ==> js[i] < js[j]
  }

  /** The request of this chunk has outputs and lacks only its newest token. */
  ghost predicate Decodes(trace: seq<Request>, s: EngineState, c: Chunk)
    requires c.rid in s.prog && c.rid < |trace|
  {
    s.prog[c.rid].generated > 0
    && s.prog[c.rid].computed == trace[c.rid].inputLen + s.prog[c.rid].generated - 1
  }

  /** Prompt and output tokens of the requests at these positions of the plan. */
  ghost function ContextSum(trace: seq<Request>, s: EngineState, plan: seq<Chunk>, js: seq<nat>): nat
    requires PlanKnown(trace, s, plan) && Below(js, |plan|)
  {
    if js == [] then 0
    else
      var c := plan[js[|js| - 1]];
      ContextSum(trace, s, plan, js[..|js| - 1]) + trace[c.rid].inputLen + s.prog[c.rid].generated
  }

  lemma {:induction false} ContextSumPrefix(trace: seq<Request>, s: EngineState, plan: seq<Chunk>, n: nat, js: seq<nat>)
    requires PlanKnown(trace, s, plan) && n <= |plan| && Below(js, n)
    ensures PlanKnown(trace, s, plan[..n])
    ensures ContextSum(trace, s, plan[..n], js) == ContextSum(trace, s, plan, js)
  {
    if js != [] { ContextSumPrefix(trace, s, plan, n, js[..|js| - 1]); }
  }

  /** `pre` and `dec` split the plan into prefill chunks and decodes. */
  ghost predicate SplitsPlan(trace: seq<Request>, s: EngineState, plan: seq<Chunk>, pre: seq<nat>, dec: seq<nat>)
    requires PlanKnown(trace, s, plan)
  {
    && Positions(pre, |plan|) && Positions(dec, |plan|)
    && forall j: nat :: j < |plan| ==> (j in dec <==> Decodes(trace, s, plan[j])) && (j in pre <==> j !in dec)
  }

  lemma SplitsNext(trace: seq<Request>, s: EngineState, plan: seq<Chunk>, pre: seq<nat>, dec: seq<nat>)
    requires PlanKnown(trace, s, plan) && plan != [] && SplitsPlan(trace, s, plan[..|plan| - 1], pre, dec)
    ensures var n := |plan| - 1;
            if Decodes(trace, s, plan[n]) then SplitsPlan(trace, s, plan, pre, dec + [n])
            else SplitsPlan(trace, s, plan, pre + [n], dec)
  {
    hide Decodes;
    var n, init := |plan| - 1, plan[..|plan| - 1];
    assert forall j: nat :: j < n ==> init[j] == plan[j];
    assert n !in pre && n !in dec;
  }

  /** The batch consists of these prefill chunks and these decodes. */
  ghost predicate BatchIs(trace: seq<Request>, s: EngineState, plan: seq<Chunk>, b: Batch, pre: seq<nat>, dec: seq<nat>)
    requires PlanKnown(trace, s, plan) && Below(pre, |plan|) && Below(dec, |plan|)
  {
    && b.decodes == |dec| && b.decodeCtx == ContextSum(trace, s, plan, dec)
    && |b.chunks| == |pre|
    && forall i :: 0 <= i < |pre| ==> b.chunks[i] == (plan[pre[i]].tokens, s.prog[plan[pre[i]].rid].computed)
  }

  lemma BatchNext(trace: seq<Request>, s: EngineState, plan: seq<Chunk>, pre: seq<nat>, dec: seq<nat>)
    requires PlanKnown(trace, s, plan) && plan != [] && PlanKnown(trace, s, plan[..|plan| - 1])
    requires Below(pre, |plan| - 1) && Below(dec, |plan| - 1)
    requires BatchIs(trace, s, plan[..|plan| - 1], BatchOf(trace, s, plan[..|plan| - 1]), pre, dec)
    ensures var n := |plan| - 1;
            if Decodes(trace, s, plan[n]) then BatchIs(trace, s, plan, BatchOf(trace, s, plan), pre, dec + [n])
            else BatchIs(trace, s, plan, BatchOf(trace, s, plan), pre + [n], dec)
  {
    var n := |plan| - 1;
    ContextSumPrefix(trace, s, plan, n, dec);
    assert (dec + [n])[..|dec|] == dec;
    assert forall i :: 0 <= i < |pre| ==> plan[..n][pre[i]] == plan[pre[i]];
  }

  /**
   The batch the cost model is asked about: the decodes with the sum of their contexts, and each other chunk, in
   plan order, as its new tokens and the tokens its request has computed.
   */
  lemma {:induction false} BatchEntries(trace: seq<Request>, s: EngineState, plan: seq<Chunk>)
    returns (pre: seq<nat>, dec: seq<nat>)
    requires PlanKnown(trace, s, plan)
    ensures SplitsPlan(trace, s, plan, pre, dec) && BatchIs(trace, s, plan, BatchOf(trace, s, plan), pre, dec)
  {
    if plan == [] {
      pre, dec := [], [];
    } else {
      var n := |plan| - 1;
      pre, dec := BatchEntries(trace, s, plan[..n]);
      assert Below(pre, n) && Below(dec, n);
      hide SplitsPlan, BatchIs, BatchOf;
      SplitsNext(trace, s, plan, pre, dec);
      BatchNext(trace, s, plan, pre, dec);
      if Decodes(trace, s, plan[n]) { dec := dec + [n]; } else { pre := pre + [n]; }
    }
  }

  lemma PlanNextBudget(trace: seq<Request>, cfg: Config, a: Run)
    requires Planning(trace, cfg, a) && Unplanned(a) && NextFits(trace, cfg, a)
    ensures var b := PlanNext(trace, cfg, a);
            b.budget == a.budget - NextTokens(trace, cfg, a) && PlanTokens(b.plan) + b.budget == PlanTokens(a.plan) + a.budget
  {
    hide Inv, Planning, AllComplete, GrowNext, NextTokens;
    assert PlanNext(trace, cfg, a).plan[..|a.plan|] == a.plan;
  }

  lemma {:induction false} RunLoopBudget(trace: seq<Request>, cfg: Config, r: Run)
    requires Planning(trace, cfg, r)
    ensures var t := RunLoop(trace, cfg, r); PlanTokens(t.plan) + t.budget == PlanTokens(r.plan) + r.budget
    decreases |r.s.running| - |r.plan|
  {
    RunLoopSteps(trace, cfg, r);
    hide Planning, NextFits, Evict, NextTokens, RunLoop, PlanNext, PlanTokens;
    if !Unplanned(r) {
    } else if NextFits(trace, cfg, r) {
      PlanNextBudget(trace, cfg, r);
      RunLoopBudget(trace, cfg, PlanNext(trace, cfg, r));
    } else {
      EvictBudget(trace, cfg, r);
      if |r.s.running| != |r.plan| + 1 { RunLoopBudget(trace, cfg, Evict(trace, cfg, r)); }
    }
  }

  lemma AdmitHeadBudget(trace: seq<Request>, cfg: Config, r: Run)
    requires Admitting(trace, cfg, r) && Open(cfg, r) && HeadOffer(trace, cfg, r).fits
    ensures var t := AdmitHead(trace, cfg, r); PlanTokens(t.plan) + t.budget == PlanTokens(r.plan) + r.budget
  {
    hide Inv, AllComplete, GrowNext, Adopted, Consider;
    assert AdmitHead(trace, cfg, r).plan[..|r.plan|] == r.plan;
  }

  lemma {:induction false} AdmitLoopBudget(trace: seq<Request>, cfg: Config, r: Run)
    requires Admitting(trace, cfg, r)
    ensures var t := AdmitLoop(trace, cfg, r); PlanTokens(t.plan) + t.budget == PlanTokens(r.plan) + r.budget
    decreases |r.s.waiting|
  {
    hide Admitting, Open, HeadOffer, AdmitHead, PlanTokens;
    if Open(cfg, r) && HeadOffer(trace, cfg, r).fits {
      AdmitHeadBudget(trace, cfg, r);
      AdmitLoopBudget(trace, cfg, AdmitHead(trace, cfg, r));
    }
  }

  /** A step never schedules more tokens than its budget. */
  lemma ScheduleWithinBudget(trace: seq<Request>, cfg: Config, s: EngineState)
    requires Usable(trace, cfg) && Inv(trace, cfg, s, 0, [])
    ensures PlanTokens(Schedule(trace, cfg, s).plan) <= cfg.tokenBudget
  {
    var r := Run(s, [], cfg.tokenBudget, false);
    EmptyPlan(trace, cfg, s);
    RunLoopBudget(trace, cfg, r);
    hide Inv, AllComplete, RunLoop, AdmitLoop;
    var t := RunLoop(trace, cfg, r);
    if !t.preempted { AdmitLoopBudget(trace, cfg, t); }
  }
}
