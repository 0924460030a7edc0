/** schedule as a whole: the running-first loop with preemption, then admission in queue order. */
module ScheduleLoops {
  import opened Common
  import opened BlockPool
  import opened Scheduling
  import opened ScheduleSteps

  /** The local variables of schedule. */
  datatype Run = Run(s: EngineState, plan: seq<Chunk>, budget: nat, preempted: bool)

  /** While tokens are left, every chunk planned so far completes its request. */
  ghost predicate Planning(trace: seq<Request>, cfg: Config, r: Run) {
    && Usable(trace, cfg) && Inv(trace, cfg, r.s, 0, r.plan)
    && (r.budget > 0 ==> AllComplete(trace, r.s, r.plan))
  }

  /** Admission starts only when the running requests have all been planned. */
  ghost predicate Admitting(trace: seq<Request>, cfg: Config, r: Run) {
    Planning(trace, cfg, r) && (r.budget > 0 ==> |r.plan| == |r.s.running|)
  }

  // ---------------------------------------------------------------------------------------
  // Running requests first

  /** Some running request has not been planned and tokens are left. */
  predicate Unplanned(r: Run) {
    |r.plan| < |r.s.running| && r.budget > 0
  }

  /** New tokens for the next running request. */
  function NextTokens(trace: seq<Request>, cfg: Config, r: Run): (n: nat)
    requires Planning(trace, cfg, r) && Unplanned(r)
    ensures 1 <= n <= r.budget
    ensures n <= Length(trace, r.s, r.s.running[|r.plan|]) - r.s.prog[r.s.running[|r.plan|]].computed
    ensures n < r.budget ==> n == Length(trace, r.s, r.s.running[|r.plan|]) - r.s.prog[r.s.running[|r.plan|]].computed
  {
    var rid := r.s.running[|r.plan|];
    Min(Length(trace, r.s, rid) - r.s.prog[rid].computed, r.budget)
  }

  predicate NextFits(trace: seq<Request>, cfg: Config, r: Run)
    requires Planning(trace, cfg, r) && Unplanned(r)
  {
    var rid := r.s.running[|r.plan|];
    Need(r.s, rid, r.s.prog[rid].computed + NextTokens(trace, cfg, r)) <= |r.s.pool.free|
  }

  /** The request at the next place of the running queue of `s` gets `tokens` tokens. */
  function WithChunk(trace: seq<Request>, r: Run, s: EngineState, tokens: nat): Run
    requires Defined(trace, s) && |r.plan| < |s.running| && tokens <= r.budget
    requires Need(s, s.running[|r.plan|], s.prog[s.running[|r.plan|]].computed + tokens) <= |s.pool.free|
  {
    r.(s := GrowNext(trace, s, |r.plan|, tokens), plan := r.plan + [Chunk(s.running[|r.plan|], tokens)],
       budget := r.budget - tokens)
  }

  /** A chunk leaves its request short only by using up the budget. */
  lemma WithChunkKeeps(trace: seq<Request>, cfg: Config, r: Run, s: EngineState, tokens: nat)
    requires Usable(trace, cfg) && CanGrow(trace, cfg, s, r.plan, tokens) && tokens <= r.budget
    requires var x := s.running[|r.plan|]; tokens < r.budget ==> s.prog[x].computed + tokens == Length(trace, s, x)
    ensures var t := WithChunk(trace, r, s, tokens);
            Planning(trace, cfg, t) && Order(t.s) == Order(s) && |t.s.running| == |s.running|
  {
    hide Owned, OwnKeys, Take, Plans, Records, AllComplete, Order;
    GrowKeepsInv(trace, cfg, s, r.plan, tokens);
    QueuesApart(s);
    GrowCompletes(trace, s, r.plan, tokens);
  }

  /** A chunk up to the end of the sequence completes it. */
  lemma GrowCompletes(trace: seq<Request>, s: EngineState, plan: seq<Chunk>, tokens: nat)
    requires Defined(trace, s) && Plans(trace, s, 0, plan) && AllComplete(trace, s, plan) && Distinct(s.running)
    requires |plan| < |s.running|
    requires Need(s, s.running[|plan|], s.prog[s.running[|plan|]].computed + tokens) <= |s.pool.free|
    requires Defined(trace, GrowNext(trace, s, |plan|, tokens))
    ensures s.prog[s.running[|plan|]].computed + tokens == Length(trace, s, s.running[|plan|]) ==>
              AllComplete(trace, GrowNext(trace, s, |plan|, tokens), plan + [Chunk(s.running[|plan|], tokens)])
  {
    hide Take, Below, Shape, CeilBlocks;
  }

  /** The next running request gets its tokens. */
  function PlanNext(trace: seq<Request>, cfg: Config, r: Run): (t: Run)
    requires Planning(trace, cfg, r) && Unplanned(r) && NextFits(trace, cfg, r)
    ensures Planning(trace, cfg, t) && Order(t.s) == Order(r.s) && |t.s.running| == |r.s.running|
    ensures t.plan == r.plan + [Chunk(r.s.running[|r.plan|], NextTokens(trace, cfg, r))]
  {
    hide Owned, OwnKeys, Take, Queues, Plans, Records, AllComplete, NextTokens;
    WithChunkKeeps(trace, cfg, r, r.s, NextTokens(trace, cfg, r));
    WithChunk(trace, r, r.s, NextTokens(trace, cfg, r))
  }

  /** The tail makes room. */
  function Evict(trace: seq<Request>, cfg: Config, r: Run): (t: Run)
    requires Planning(trace, cfg, r) && |r.plan| < |r.s.running|
    ensures Planning(trace, cfg, t) && Order(t.s) == Order(r.s) && t.plan == r.plan && t.preempted
    ensures |t.s.running| == |r.s.running| - 1
  {
    hide Owned, OwnKeys, Release, Plans, Records, Below, Shape;
    PreemptKeepsInv(trace, cfg, r.s, r.plan);
    EvictComplete(trace, cfg, r);
    r.(s := PreemptTail(trace, r.s), preempted := true)
  }

  lemma EvictComplete(trace: seq<Request>, cfg: Config, r: Run)
    requires Planning(trace, cfg, r) && |r.plan| < |r.s.running| && Defined(trace, PreemptTail(trace, r.s))
    ensures forall j :: 0 <= j < |r.plan| ==>
              r.plan[j].rid == r.s.running[j] && r.plan[j].rid in PreemptTail(trace, r.s).prog
              && PreemptTail(trace, r.s).prog[r.plan[j].rid] == r.s.prog[r.plan[j].rid]
    ensures r.budget > 0 ==> AllComplete(trace, PreemptTail(trace, r.s), r.plan)
  {
    hide Owned, OwnKeys, Release, Below, Shape, Records, CeilBlocks;
    QueuesApart(r.s);
  }

  /** The inner loop of schedule: preempt from the tail until the request being planned fits, or has itself gone. */
  function MakeRoom(trace: seq<Request>, cfg: Config, r: Run): (t: Run)
    requires Planning(trace, cfg, r) && Unplanned(r)
    ensures Planning(trace, cfg, t) && Order(t.s) == Order(r.s) && r.plan <= t.plan
    ensures |t.s.running| <= |r.s.running| && |t.s.running| - |t.plan| < |r.s.running| - |r.plan|
    ensures |t.plan| == |r.plan| ==> t.preempted
    decreases |r.s.running|
  {
    hide Inv, AllComplete, Planning, NextTokens;
    if NextFits(trace, cfg, r) then PlanNext(trace, cfg, r)
    else if |r.s.running| == |r.plan| + 1 then Evict(trace, cfg, r)
    else EvictBudget(trace, cfg, r); MakeRoom(trace, cfg, Evict(trace, cfg, r))
  }

  lemma EvictBudget(trace: seq<Request>, cfg: Config, r: Run)
    requires Planning(trace, cfg, r) && |r.plan| < |r.s.running|
    ensures Evict(trace, cfg, r).budget == r.budget
  {
    hide Planning, PreemptTail;
  }

  /** The first loop of schedule. It stops early when the request being planned has preempted itself. */
  function RunLoop(trace: seq<Request>, cfg: Config, r: Run): (t: Run)
    requires Planning(trace, cfg, r)
    ensures Planning(trace, cfg, t) && Order(t.s) == Order(r.s) && r.plan <= t.plan
    ensures t.preempted || Admitting(trace, cfg, t)
    ensures |t.s.running| <= |r.s.running|
    decreases |r.s.running| - |r.plan|
  {
    hide Inv, AllComplete;
    if !Unplanned(r) then assert |r.plan| <= |r.s.running| by { PlanWithin(trace, cfg, r); } r
    else
      var t := MakeRoom(trace, cfg, r);
      if |t.plan| == |r.plan| then t else RunLoop(trace, cfg, t)
  }

  /** The two nested loops as one. */
  lemma RunLoopSteps(trace: seq<Request>, cfg: Config, r: Run)
    requires Planning(trace, cfg, r)
    ensures !Unplanned(r) ==> RunLoop(trace, cfg, r) == r
    ensures Unplanned(r) && NextFits(trace, cfg, r) ==>
              RunLoop(trace, cfg, r) == RunLoop(trace, cfg, PlanNext(trace, cfg, r))
    ensures Unplanned(r) && !NextFits(trace, cfg, r) ==>
              RunLoop(trace, cfg, r) ==
              if |r.s.running| == |r.plan| + 1 then Evict(trace, cfg, r) else RunLoop(trace, cfg, Evict(trace, cfg, r))
  {
    hide Planning, NextFits, PlanNext, Evict, NextTokens, Order;
    if Unplanned(r) && !NextFits(trace, cfg, r) { EvictBudget(trace, cfg, r); }
  }

  lemma PlanWithin(trace: seq<Request>, cfg: Config, r: Run)
    requires Planning(trace, cfg, r)
    ensures |r.plan| <= |r.s.running|
  {
  }

  // ---------------------------------------------------------------------------------------
  // Admission

  /** A waiting request may be looked at. */
  predicate Open(cfg: Config, r: Run) {
    r.s.waiting != [] && r.budget > 0 && |r.s.running| < cfg.maxSeqs
  }

  function HeadOffer(trace: seq<Request>, cfg: Config, r: Run): (o: Offer)
    requires Admitting(trace, cfg, r) && Open(cfg, r)
    ensures o == Consider(trace, r.s, r.budget)
  {
    Consider(trace, r.s, r.budget)
  }

  /** The head of the queue has taken over its cached prefix. */
  function Adopted(trace: seq<Request>, cfg: Config, r: Run): (s: EngineState)
    requires Admitting(trace, cfg, r) && Open(cfg, r) && HeadOffer(trace, cfg, r).fits
    ensures CanGrow(trace, cfg, s, r.plan, HeadOffer(trace, cfg, r).tokens)
    ensures Order(s) == Order(r.s) && |r.plan| < |s.running| && s.running[|r.plan|] == r.s.waiting[0]
    ensures |s.waiting| == |r.s.waiting| - 1
  {
    AdmitGrows(trace, cfg, r.s, r.plan, r.budget);
    AdoptHits(trace, r.s, HeadOffer(trace, cfg, r).blocks)
  }

  lemma AdoptedComputed(trace: seq<Request>, cfg: Config, r: Run)
    requires Admitting(trace, cfg, r) && Open(cfg, r) && HeadOffer(trace, cfg, r).fits
    ensures var s, x := Adopted(trace, cfg, r), r.s.waiting[0];
            && s.prog[x].computed == |HeadOffer(trace, cfg, r).blocks| * BLOCK
            && Length(trace, s, x) == Length(trace, r.s, x)
  {
    AdmitGrows(trace, cfg, r.s, r.plan, r.budget);
    hide Adopt, Owned, OwnKeys, Below, Consider;
    assert Adopted(trace, cfg, r) == AdoptHits(trace, r.s, HeadOffer(trace, cfg, r).blocks);
  }

  /** The head of the queue is admitted and gets its first tokens. */
  function AdmitHead(trace: seq<Request>, cfg: Config, r: Run): (t: Run)
    requires Admitting(trace, cfg, r) && Open(cfg, r) && HeadOffer(trace, cfg, r).fits
    ensures Admitting(trace, cfg, t) && Order(t.s) == Order(r.s)
    ensures t.plan == r.plan + [Chunk(r.s.waiting[0], HeadOffer(trace, cfg, r).tokens)]
    ensures |t.s.waiting| == |r.s.waiting| - 1
  {
    AdmitHeadKeeps(trace, cfg, r);
    hide Inv, Adopted, AllComplete, Consider, Order, Open;
    WithChunk(trace, r, Adopted(trace, cfg, r), HeadOffer(trace, cfg, r).tokens)
  }

  lemma AdmitHeadKeeps(trace: seq<Request>, cfg: Config, r: Run)
    requires Admitting(trace, cfg, r) && Open(cfg, r) && HeadOffer(trace, cfg, r).fits
    ensures var s, n := Adopted(trace, cfg, r), HeadOffer(trace, cfg, r).tokens;
            && CanGrow(trace, cfg, s, r.plan, n) && n <= r.budget
            && var t := WithChunk(trace, r, s, n);
               Admitting(trace, cfg, t) && Order(t.s) == Order(r.s) && |t.s.waiting| == |r.s.waiting| - 1
  {
    AdoptedComputed(trace, cfg, r);
    hide Inv, Adopted, AllComplete, Consider, Order;
    WithChunkKeeps(trace, cfg, r, Adopted(trace, cfg, r), HeadOffer(trace, cfg, r).tokens);
  }

  /** The second loop of schedule. */
  function AdmitLoop(trace: seq<Request>, cfg: Config, r: Run): (t: Run)
    requires Admitting(trace, cfg, r)
    ensures Admitting(trace, cfg, t) && Order(t.s) == Order(r.s) && r.plan <= t.plan
    decreases |r.s.waiting|
  {
    hide Admitting, HeadOffer;
    if !Open(cfg, r) || !HeadOffer(trace, cfg, r).fits then r
    else AdmitLoop(trace, cfg, AdmitHead(trace, cfg, r))
  }

  /** schedule, without the cost of the step: new engine state and plan. */
  function Schedule(trace: seq<Request>, cfg: Config, s: EngineState): (t: Run)
    requires Usable(trace, cfg) && Inv(trace, cfg, s, 0, [])
    ensures Inv(trace, cfg, t.s, 0, t.plan) && Order(t.s) == Order(s)
  {
    var t := RunLoop(trace, cfg, Run(s, [], cfg.tokenBudget, false));
    if t.preempted then t else AdmitLoop(trace, cfg, t)
  }

  // ---------------------------------------------------------------------------------------
  // What a step leaves alone

  /** schedule moves tokens and blocks around; it neither produces outputs nor finishes anything. */
  ghost predicate SameOutputs(s: EngineState, t: EngineState) {
    && s.prog.Keys == t.prog.Keys && s.dispatched == t.dispatched && s.firsts == t.firsts
    && forall r :: r in s.prog ==>
         && t.prog[r].generated == s.prog[r].generated && t.prog[r].firstAt == s.prog[r].firstAt
         && t.prog[r].doneAt == s.prog[r].doneAt
         && (s.prog[r].engineHit.Some? ==> t.prog[r].engineHit == s.prog[r].engineHit)
  }

  /** Growing changes one table only. */
  ghost predicate SameButTables(s: EngineState, t: EngineState) {
    && t.admitted == s.admitted && t.running == s.running && t.waiting == s.waiting
    && forall x :: x in s.prog ==>
         && x in t.prog && t.prog[x].computed == s.prog[x].computed
         && t.prog[x].preempted == s.prog[x].preempted && t.prog[x].engineHit == s.prog[x].engineHit
  }

  lemma GrowOutputs(trace: seq<Request>, s: EngineState, i: nat, tokens: nat)
    requires Defined(trace, s) && i < |s.running|
    requires Need(s, s.running[i], s.prog[s.running[i]].computed + tokens) <= |s.pool.free|
    ensures SameOutputs(s, GrowNext(trace, s, i, tokens)) && SameButTables(s, GrowNext(trace, s, i, tokens))
  {
    hide Take;
    assert GrowNext(trace, s, i, tokens).prog.Keys == s.prog.Keys;
  }

  lemma PlanNextOutputs(trace: seq<Request>, cfg: Config, r: Run)
    requires Planning(trace, cfg, r) && Unplanned(r) && NextFits(trace, cfg, r)
    ensures SameOutputs(r.s, PlanNext(trace, cfg, r).s) && SameButTables(r.s, PlanNext(trace, cfg, r).s)
  {
    assert Defined(trace, r.s);
    hide Inv, AllComplete, Take, SameOutputs, SameButTables;
    GrowOutputs(trace, r.s, |r.plan|, NextTokens(trace, cfg, r));
  }

  /** Preempting touches the victim only, and neither its outputs nor its hit. */
  lemma PreemptOutputs(trace: seq<Request>, s: EngineState)
    requires Defined(trace, s) && s.running != []
    ensures SameOutputs(s, PreemptTail(trace, s)) && PreemptTail(trace, s).admitted == s.admitted
    ensures var victim := s.running[|s.running| - 1];
            forall x :: x in s.prog ==>
              && (x != victim ==> PreemptTail(trace, s).prog[x] == s.prog[x])
              && PreemptTail(trace, s).prog[x].engineHit == s.prog[x].engineHit
  {
    hide Release, Shape, Below;
    assert PreemptTail(trace, s).prog.Keys == s.prog.Keys;
  }

  lemma EvictOutputs(trace: seq<Request>, cfg: Config, r: Run)
    requires Planning(trace, cfg, r) && |r.plan| < |r.s.running|
    ensures SameOutputs(r.s, Evict(trace, cfg, r).s)
    ensures var t := Evict(trace, cfg, r).s;
            var victim := r.s.running[|r.s.running| - 1];
            (forall x :: x in r.s.prog && x != victim ==> t.prog[x] == r.s.prog[x])
            && (forall x :: x in r.s.prog ==> t.prog[x].engineHit == r.s.prog[x].engineHit)
    ensures Evict(trace, cfg, r).s.admitted == r.s.admitted
  {
    assert Defined(trace, r.s);
    hide Inv, AllComplete, PreemptTail, Defined;
    PreemptOutputs(trace, r.s);
  }

  /** The head of `s.waiting` has been admitted with `hit` cached tokens. */
  ghost predicate AdmittedFrom(s: EngineState, t: EngineState, hit: nat) {
    && s.waiting != [] && SameOutputs(s, t) && s.waiting[0] in s.prog
    && var x := s.waiting[0];
    && t.running == s.running + [x]
    && (forall y :: y in s.prog && y != x ==>
          t.prog[y].computed == s.prog[y].computed && t.prog[y].preempted == s.prog[y].preempted
          && t.prog[y].engineHit == s.prog[y].engineHit)
    && t.prog[x].preempted == s.prog[x].preempted && t.prog[x].computed == hit
    && if s.prog[x].engineHit.None? then t.admitted == s.admitted + [x] && t.prog[x].engineHit == Some(hit)
       else t.admitted == s.admitted && t.prog[x].engineHit == s.prog[x].engineHit
  }

  lemma AdoptOutputs(trace: seq<Request>, s: EngineState, blocks: seq<nat>)
    requires Defined(trace, s) && s.waiting != [] && Below(blocks, |s.pool.ref|) && Counted(s.pool)
    ensures AdmittedFrom(s, AdoptHits(trace, s, blocks), |blocks| * BLOCK)
  {
    hide Adopt;
    assert AdoptHits(trace, s, blocks).prog.Keys == s.prog.Keys;
  }

  lemma AdoptedOutputs(trace: seq<Request>, cfg: Config, r: Run)
    requires Admitting(trace, cfg, r) && Open(cfg, r) && HeadOffer(trace, cfg, r).fits
    ensures AdmittedFrom(r.s, Adopted(trace, cfg, r), |HeadOffer(trace, cfg, r).blocks| * BLOCK)
  {
    AdmitGrows(trace, cfg, r.s, r.plan, r.budget);
    assert Defined(trace, r.s);
    AdoptOutputs(trace, r.s, HeadOffer(trace, cfg, r).blocks);
  }

  /** Admission changes the admitted request only; its first admission fixes its hit. */
  lemma AdmitHeadOutputs(trace: seq<Request>, cfg: Config, r: Run)
    requires Admitting(trace, cfg, r) && Open(cfg, r) && HeadOffer(trace, cfg, r).fits
    ensures AdmittedFrom(r.s, AdmitHead(trace, cfg, r).s, |HeadOffer(trace, cfg, r).blocks| * BLOCK)
  {
    hide Inv, AllComplete, Take, Adopt, Consider, AdoptHits, GrowNext, HeadOffer, Adopted, Planning, Admitting;
    AdoptedOutputs(trace, cfg, r);
    var s := Adopted(trace, cfg, r);
    assert Defined(trace, s) by { AdoptedDefined(trace, cfg, r); }
    GrowOutputs(trace, s, |r.plan|, HeadOffer(trace, cfg, r).tokens);
  }

  lemma AdoptedDefined(trace: seq<Request>, cfg: Config, r: Run)
    requires Admitting(trace, cfg, r) && Open(cfg, r) && HeadOffer(trace, cfg, r).fits
    ensures Defined(trace, Adopted(trace, cfg, r))
  {
    hide Adopted, Consider, HeadOffer;
  }
}
