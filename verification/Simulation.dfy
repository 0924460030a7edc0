/**
 simulate (routing_sim.py) as a protocol: arrivals are dispatched to any instance, steps in flight end in any
 order. Whatever the policy chooses and however events interleave, every run is finite, drains, and keeps the
 router's counters equal to the engines' histories.
 */
module Simulation {
  import opened Common
  import opened BlockPool
  import opened Scheduling
  import opened ScheduleLoops
  import opened FinishLoops
  import opened ProgressBound
  import opened DispatchOrder
  import opened IdealHit
  import opened RouterCell

  /**
   `log` lists the dispatched requests in order, `tokens` the new prompt tokens each was dispatched with; `trims` counts
   the index trims still to come, which are pushed before the run starts.
   */
  datatype Sim = Sim(cells: seq<Cell>, tokens: map<nat, int>, log: seq<nat>, placed: map<nat, nat>, trims: nat)

  /**
   An arrival with the router's choice of instance and new-token count, the end of an instance's step, or a trim of the
   router's indexes (which only bears on later answers of the index).
   */
  datatype Event = Arrive(r: nat, i: nat, newTokens: int) | StepEnd(i: nat, now: int) | Trim

  function Initial(cfg: Config, n: nat, trims: nat): Sim {
    Sim(seq(n, _ => Cell(NewEngine(cfg), [], 0, 0, multiset{})), map[], [], map[], trims)
  }

  /** The part of the log placed on instance `i`. */
  ghost function Share(log: seq<nat>, placed: map<nat, nat>, i: nat): seq<nat> {
    if log == [] then []
    else
      var n := |log| - 1;
      Share(log[..n], placed, i) + (if log[n] in placed && placed[log[n]] == i then [log[n]] else [])
  }

  /** The log is duplicate-free and accounted for. */
  ghost predicate LogInv(trace: seq<Request>, s: Sim) {
    && Distinct(s.log)
    && (forall k :: 0 <= k < |s.log| ==>
          s.log[k] < |trace| && s.log[k] in s.tokens && s.log[k] in s.placed && s.placed[s.log[k]] < |s.cells|)
    && (forall i :: 0 <= i < |s.cells| ==> s.cells[i].e.dispatched == Share(s.log, s.placed, i))
  }

  ghost predicate SimInv(trace: seq<Request>, cfg: Config, s: Sim) {
    && Usable(trace, cfg) && FitAlone(trace, cfg) && LogInv(trace, s)
    && forall i :: 0 <= i < |s.cells| ==> CellInv(trace, cfg, s.tokens, s.cells[i])
  }

  predicate Enabled(trace: seq<Request>, s: Sim, ev: Event) {
    match ev
    case Arrive(r, i, _) => r < |trace| && r !in s.log && i < |s.cells|
    case StepEnd(i, _) => i < |s.cells| && s.cells[i].flight != []
    case Trim => s.trims > 0
  }

  lemma NotSent(trace: seq<Request>, cfg: Config, s: Sim, r: nat, i: nat)
    requires SimInv(trace, cfg, s) && r !in s.log && i < |s.cells|
    ensures r !in s.cells[i].e.prog
  {
    ShareMembers(s.log, s.placed, i);
    assert Known(s.cells[i].e);
    hide Share, CellInv;
  }

  lemma {:induction false} ShareMembers(log: seq<nat>, placed: map<nat, nat>, i: nat)
    ensures forall x :: x in Share(log, placed, i) <==> x in log && x in placed && placed[x] == i
  {
    if log != [] {
      var n := |log| - 1;
      assert log == log[..n] + [log[n]];
      ShareMembers(log[..n], placed, i);
    }
  }

  function Step(trace: seq<Request>, cfg: Config, s: Sim, ev: Event): Sim
    requires SimInv(trace, cfg, s) && Enabled(trace, s, ev)
  {
    match ev
    case Arrive(r, i, newTokens) =>
      NotSent(trace, cfg, s, r, i);
      assert CellInv(trace, cfg, s.tokens, s.cells[i]);
      s.(cells := s.cells[i := Receive(trace, cfg, s.cells[i], r, newTokens)], tokens := s.tokens[r := newTokens],
         log := s.log + [r], placed := s.placed[r := i])
    case StepEnd(i, now) =>
      assert CellInv(trace, cfg, s.tokens, s.cells[i]);
      s.(cells := s.cells[i := EndStep(trace, cfg, s.tokens, s.cells[i], now)])
    case Trim => s.(trims := s.trims - 1)
  }

  // ---------------------------------------------------------------------------------------
  // Every event keeps the invariant

  lemma EnqueueKeeps(trace: seq<Request>, cfg: Config, w: map<nat, int>, c: Cell, r: nat, tokens: int)
    requires CellInv(trace, cfg, w, c) && r < |trace| && r !in c.e.prog
    ensures var d := Enqueue(trace, c, r, tokens);
            && Inv(trace, cfg, d.e, 0, d.flight) && Credited(trace, d.e) && Counts(trace, w[r := tokens], d.e, d)
            && d.e.dispatched == c.e.dispatched + [r] && d.flight == c.flight && Order(d.e) != []
            && Potential(trace, d.e) == Potential(trace, c.e) + Total(trace[r])
  {
    SubmitInv(trace, cfg, c.e, 0, c.flight, r);
    SubmitCredited(trace, c.e, r);
    CountsSubmit(trace, w, c.e, c, r, tokens);
    SubmitPotential(trace, cfg, c.e, c.flight, r);
    hide Inv, Usable, Credited, Potential, Counts, Order, Total;
  }

  /** A dispatch keeps the instance's invariant; an idle instance starts working. */
  lemma ReceiveKeeps(trace: seq<Request>, cfg: Config, w: map<nat, int>, c: Cell, r: nat, tokens: int)
    requires CellInv(trace, cfg, w, c) && FitAlone(trace, cfg) && r < |trace| && r !in c.e.prog
    ensures var d := Receive(trace, cfg, c, r, tokens);
            && CellInv(trace, cfg, w[r := tokens], d) && d.e.dispatched == c.e.dispatched + [r]
            && Potential(trace, d.e) <= Potential(trace, c.e) + Total(trace[r])
  {
    EnqueueKeeps(trace, cfg, w, c, r, tokens);
    hide Inv, Usable, Credited, Potential, Counts, Order, StartStep, Total, Enqueue;
    if c.flight == [] { StartKeeps(trace, cfg, w[r := tokens], Enqueue(trace, c, r, tokens)); }
  }

  /** A dispatch adds the request's whole work to the potential. */
  lemma SubmitPotential(trace: seq<Request>, cfg: Config, s: EngineState, plan: seq<Chunk>, r: nat)
    requires Usable(trace, cfg) && Inv(trace, cfg, s, 0, plan) && r < |trace| && r !in s.prog
    ensures Potential(trace, Submit(s, r)) == Potential(trace, s) + Total(trace[r])
  {
    OrderDefined(trace, cfg, s, 0, plan);
    SubmitInv(trace, cfg, s, 0, plan, r);
    hide Inv, Order, Total, Distinct, Usable, Left, Listed;
    LeftAppend(trace, Order(s), s.prog, r);
  }

  lemma LeftAppend(trace: seq<Request>, order: seq<nat>, p: map<nat, Progress>, r: nat)
    requires Listed(trace, order, p) && r < |trace| && trace[r].inputLen >= 1 && r !in p
    ensures Listed(trace, order + [r], p[r := NotStarted])
    ensures Left(trace, order + [r], p[r := NotStarted]) == Left(trace, order, p) + Total(trace[r])
  {
    hide Work, Total;
    WorkAppend(trace, order, r);
    if order == [] { WorkAlone(trace, r); }
  }

  lemma WorkAlone(trace: seq<Request>, r: nat)
    requires r < |trace| && trace[r].inputLen >= 1
    ensures Workable(trace, []) && Work(trace, []) == 0 && Work(trace, [r]) == Total(trace[r])
  {
    assert [r][..0] == [];
  }

  lemma CellFrame(trace: seq<Request>, cfg: Config, w: map<nat, int>, c: Cell, r: nat, tokens: int)
    requires CellInv(trace, cfg, w, c) && r !in c.e.prog
    ensures CellInv(trace, cfg, w[r := tokens], c)
  {
    hide Inv, Usable, Credited, Order;
    SumsFrame(trace, Order(c.e), c.e.prog, c.e.prog, w, w[r := tokens]);
  }

  lemma ShareAppend(log: seq<nat>, placed: map<nat, nat>, r: nat, i: nat, k: nat)
    requires r !in log
    ensures Share(log + [r], placed[r := i], k) == Share(log, placed, k) + (if k == i then [r] else [])
  {
    assert (log + [r])[..|log|] == log;
    ShareFrame(log, placed, placed[r := i], k);
  }

  lemma {:induction false} ShareFrame(log: seq<nat>, p: map<nat, nat>, q: map<nat, nat>, k: nat)
    requires forall x :: x in log ==> (x in p && p[x] == k <==> x in q && q[x] == k)
    ensures Share(log, p, k) == Share(log, q, k)
  {
    if log != [] {
      var n := |log| - 1;
      assert log[n] in log;
      assert forall x :: x in log[..n] ==> x in log;
      ShareFrame(log[..n], p, q, k);
    }
  }

  lemma ArriveLog(trace: seq<Request>, cfg: Config, s: Sim, t: Sim, r: nat, i: nat, newTokens: int)
    requires LogInv(trace, s) && r < |trace| && r !in s.log && i < |s.cells|
    requires |t.cells| == |s.cells| && t.tokens == s.tokens[r := newTokens] && t.log == s.log + [r]
    requires t.placed == s.placed[r := i]
    requires forall k :: 0 <= k < |s.cells| ==>
               t.cells[k].e.dispatched == s.cells[k].e.dispatched + (if k == i then [r] else [])
    ensures LogInv(trace, t)
  {
    forall k | 0 <= k < |t.cells| ensures t.cells[k].e.dispatched == Share(t.log, t.placed, k) {
      ShareAppend(s.log, s.placed, r, i, k);
    }
    hide Share;
  }

  lemma ArriveKeeps(trace: seq<Request>, cfg: Config, s: Sim, r: nat, i: nat, newTokens: int)
    requires SimInv(trace, cfg, s) && Enabled(trace, s, Arrive(r, i, newTokens))
    ensures SimInv(trace, cfg, Step(trace, cfg, s, Arrive(r, i, newTokens)))
  {
    hide Inv, Credited, Counts, Usable, FitAlone, Share, Order, Distinct, Receive;
    NotSent(trace, cfg, s, r, i);
    ReceiveKeeps(trace, cfg, s.tokens, s.cells[i], r, newTokens);
    var t := Step(trace, cfg, s, Arrive(r, i, newTokens));
    hide CellInv, LogInv;
    forall k | 0 <= k < |t.cells| ensures CellInv(trace, cfg, t.tokens, t.cells[k]) {
      if k != i {
        NotSent(trace, cfg, s, r, k);
        CellFrame(trace, cfg, s.tokens, s.cells[k], r, newTokens);
      }
    }
    ArriveLog(trace, cfg, s, t, r, i, newTokens);
  }

  lemma StepEndKeeps(trace: seq<Request>, cfg: Config, s: Sim, i: nat, now: int)
    requires SimInv(trace, cfg, s) && Enabled(trace, s, StepEnd(i, now))
    ensures SimInv(trace, cfg, Step(trace, cfg, s, StepEnd(i, now)))
  {
    hide Inv, Credited, Counts, Usable, FitAlone, Share, Order, Distinct, EndStep;
    EndKeeps(trace, cfg, s.tokens, s.cells[i], now);
    var t := Step(trace, cfg, s, StepEnd(i, now));
    hide CellInv, LogInv;
    EndLog(trace, s, t, i);
  }

  /** Every enabled event keeps the invariant. */
  lemma StepKeeps(trace: seq<Request>, cfg: Config, s: Sim, ev: Event)
    requires SimInv(trace, cfg, s) && Enabled(trace, s, ev)
    ensures SimInv(trace, cfg, Step(trace, cfg, s, ev))
  {
    hide SimInv, Enabled, Step;
    match ev
    case Arrive(r, i, newTokens) => ArriveKeeps(trace, cfg, s, r, i, newTokens);
    case StepEnd(i, now) => StepEndKeeps(trace, cfg, s, i, now);
    case Trim => TrimKeeps(trace, cfg, s);
  }

  lemma TrimKeeps(trace: seq<Request>, cfg: Config, s: Sim)
    requires SimInv(trace, cfg, s) && Enabled(trace, s, Trim)
    ensures SimInv(trace, cfg, Step(trace, cfg, s, Trim))
  {
    hide CellInv, Usable, FitAlone;
  }

  lemma EndLog(trace: seq<Request>, s: Sim, t: Sim, i: nat)
    requires LogInv(trace, s) && i < |s.cells| && |t.cells| == |s.cells|
    requires t.log == s.log && t.tokens == s.tokens && t.placed == s.placed
    requires forall k :: 0 <= k < |s.cells| ==> t.cells[k].e.dispatched == s.cells[k].e.dispatched
    ensures LogInv(trace, t)
  {
  }

  // ---------------------------------------------------------------------------------------
  // Every run is finite

  /** What requests not yet dispatched will add to a run: their work and their arrival. */
  ghost function Unsent(trace: seq<Request>, log: seq<nat>, n: nat): nat
    requires n <= |trace| && forall k :: 0 <= k < n ==> trace[k].inputLen >= 1
  {
    if n == 0 then 0 else Unsent(trace, log, n - 1) + (if n - 1 in log then 0 else Total(trace[n - 1]) + 1)
  }

  ghost function PotentialSum(trace: seq<Request>, cells: seq<Cell>): int {
    if cells == [] then 0
    else PotentialSum(trace, cells[..|cells| - 1]) + Potential(trace, cells[|cells| - 1].e)
  }

  /** An upper bound on the events still to come. */
  ghost function Fuel(trace: seq<Request>, cfg: Config, s: Sim): int
    requires Usable(trace, cfg)
  {
    Unsent(trace, s.log, |trace|) + PotentialSum(trace, s.cells) + s.trims
  }

  lemma {:induction false} SumUpdate(trace: seq<Request>, cells: seq<Cell>, i: nat, c: Cell)
    requires i < |cells|
    ensures PotentialSum(trace, cells[i := c]) ==
            PotentialSum(trace, cells) - Potential(trace, cells[i].e) + Potential(trace, c.e)
  {
    hide Potential;
    var n := |cells| - 1;
    if i == n {
      assert cells[i := c][..n] == cells[..n];
    } else {
      SumUpdate(trace, cells[..n], i, c);
      assert cells[i := c][..n] == cells[..n][i := c];
    }
  }

  lemma {:induction false} SumNonNegative(trace: seq<Request>, cfg: Config, w: map<nat, int>, cells: seq<Cell>)
    requires forall i :: 0 <= i < |cells| ==> CellInv(trace, cfg, w, cells[i])
    ensures PotentialSum(trace, cells) >= 0
  {
    hide Inv, Potential, Credited, Counts;
    if cells != [] {
      var n := |cells| - 1;
      SumNonNegative(trace, cfg, w, cells[..n]);
      PotentialLeft(trace, cfg, cells[n].e, 0, cells[n].flight);
    }
  }

  lemma {:induction false} UnsentAppend(trace: seq<Request>, log: seq<nat>, r: nat, n: nat)
    requires n <= |trace| && forall k :: 0 <= k < n ==> trace[k].inputLen >= 1
    requires r !in log && r < |trace| && trace[r].inputLen >= 1
    ensures Unsent(trace, log + [r], n) == Unsent(trace, log, n) - (if r < n then Total(trace[r]) + 1 else 0)
  {
    if n > 0 { UnsentAppend(trace, log, r, n - 1); }
  }

  lemma ArriveUsesFuel(trace: seq<Request>, cfg: Config, s: Sim, r: nat, i: nat, newTokens: int)
    requires SimInv(trace, cfg, s) && Enabled(trace, s, Arrive(r, i, newTokens))
    ensures Fuel(trace, cfg, Step(trace, cfg, s, Arrive(r, i, newTokens))) <= Fuel(trace, cfg, s) - 1
  {
    hide CellInv, LogInv, Receive, FitAlone, Potential, Total, Unsent, PotentialSum;
    UsableLengths(trace, cfg);
    NotSent(trace, cfg, s, r, i);
    CellOf(trace, cfg, s, i);
    ReceiveKeeps(trace, cfg, s.tokens, s.cells[i], r, newTokens);
    SumUpdate(trace, s.cells, i, Step(trace, cfg, s, Arrive(r, i, newTokens)).cells[i]);
    UnsentAppend(trace, s.log, r, |trace|);
  }

  lemma UsableLengths(trace: seq<Request>, cfg: Config)
    requires Usable(trace, cfg)
    ensures forall k :: 0 <= k < |trace| ==> trace[k].inputLen >= 1
  {}

  lemma EndUsesFuel(trace: seq<Request>, cfg: Config, s: Sim, i: nat, now: int)
    requires SimInv(trace, cfg, s) && Enabled(trace, s, StepEnd(i, now))
    ensures Fuel(trace, cfg, Step(trace, cfg, s, StepEnd(i, now))) <= Fuel(trace, cfg, s) - 1
  {
    hide CellInv, LogInv, EndStep, FitAlone, Potential, Total, Unsent, PotentialSum;
    CellOf(trace, cfg, s, i);
    EndKeeps(trace, cfg, s.tokens, s.cells[i], now);
    SumUpdate(trace, s.cells, i, Step(trace, cfg, s, StepEnd(i, now)).cells[i]);
  }

  /** Every event uses up fuel, whatever the policy and the order of events. */
  lemma StepUsesFuel(trace: seq<Request>, cfg: Config, s: Sim, ev: Event)
    requires SimInv(trace, cfg, s) && Enabled(trace, s, ev)
    ensures Fuel(trace, cfg, Step(trace, cfg, s, ev)) <= Fuel(trace, cfg, s) - 1
    ensures Fuel(trace, cfg, s) >= 0
  {
    hide SimInv, Receive, EndStep, PotentialSum, Unsent;
    FuelNonNegative(trace, cfg, s);
    match ev
    case Arrive(r, i, newTokens) => ArriveUsesFuel(trace, cfg, s, r, i, newTokens);
    case StepEnd(i, now) => EndUsesFuel(trace, cfg, s, i, now);
    case Trim =>
  }

  // ---------------------------------------------------------------------------------------
  // Whole runs

  /** `evs` is a run from `s` to `t`: every event is enabled when it happens. */
  ghost predicate Runs(trace: seq<Request>, cfg: Config, s: Sim, evs: seq<Event>, t: Sim)
    requires SimInv(trace, cfg, s)
    decreases |evs|
  {
    if evs == [] then s == t
    else
      && Enabled(trace, s, evs[0])
      && (StepKeeps(trace, cfg, s, evs[0]); Runs(trace, cfg, Step(trace, cfg, s, evs[0]), evs[1..], t))
  }

  lemma InitialInv(trace: seq<Request>, cfg: Config, n: nat, trims: nat)
    requires Usable(trace, cfg) && FitAlone(trace, cfg)
    ensures SimInv(trace, cfg, Initial(cfg, n, trims))
  {
    InitialCell(trace, cfg);
    hide CellInv, NewEngine, Usable, FitAlone;
    assert forall i :: 0 <= i < n ==> Initial(cfg, n, trims).cells[i] == Cell(NewEngine(cfg), [], 0, 0, multiset{});
    assert NewEngine(cfg).dispatched == [];
  }

  lemma InitialFuel(trace: seq<Request>, cfg: Config, n: nat, trims: nat)
    requires Usable(trace, cfg)
    ensures Fuel(trace, cfg, Initial(cfg, n, trims)) == TokenTotal(trace, |trace|) + trims
  {
    InitialPotential(trace, cfg, Initial(cfg, n, trims).cells);
    UnsentAll(trace, |trace|);
  }

  lemma InitialCell(trace: seq<Request>, cfg: Config)
    requires Usable(trace, cfg)
    ensures CellInv(trace, cfg, map[], Cell(NewEngine(cfg), [], 0, 0, multiset{}))
  {
    hide BlockPool.Fresh, Valid, Unshared;
  }

  lemma {:induction false} InitialPotential(trace: seq<Request>, cfg: Config, cells: seq<Cell>)
    requires forall i :: 0 <= i < |cells| ==> cells[i].e == NewEngine(cfg)
    ensures PotentialSum(trace, cells) == 0
  {
    if cells != [] {
      InitialPotential(trace, cfg, cells[..|cells| - 1]);
      assert Order(NewEngine(cfg)) == [];
    }
  }

  /** All prompt and output tokens of the first `n` requests. */
  ghost function TokenTotal(trace: seq<Request>, n: nat): nat
    requires n <= |trace|
  {
    if n == 0 then 0 else TokenTotal(trace, n - 1) + trace[n - 1].inputLen + trace[n - 1].outputLen
  }

  lemma {:induction false} UnsentAll(trace: seq<Request>, n: nat)
    requires n <= |trace| && forall k :: 0 <= k < n ==> trace[k].inputLen >= 1
    ensures Unsent(trace, [], n) == TokenTotal(trace, n)
  {
    if n > 0 { UnsentAll(trace, n - 1); }
  }

  lemma {:induction false} RunsKeep(trace: seq<Request>, cfg: Config, s: Sim, evs: seq<Event>, t: Sim)
    requires SimInv(trace, cfg, s) && Runs(trace, cfg, s, evs, t)
    ensures SimInv(trace, cfg, t) && |evs| <= Fuel(trace, cfg, s) - Fuel(trace, cfg, t)
    decreases |evs|
  {
    hide SimInv, Enabled, Step, Fuel;
    if evs != [] {
      StepKeeps(trace, cfg, s, evs[0]);
      StepUsesFuel(trace, cfg, s, evs[0]);
      RunsKeep(trace, cfg, Step(trace, cfg, s, evs[0]), evs[1..], t);
    }
  }

  lemma FuelNonNegative(trace: seq<Request>, cfg: Config, s: Sim)
    requires SimInv(trace, cfg, s)
    ensures Fuel(trace, cfg, s) >= 0
  {
    SumNonNegative(trace, cfg, s.tokens, s.cells);
    hide CellInv, LogInv, FitAlone;
  }

  /**
   Every simulation ends: no run, under any policy, any interleaving and any amount of preemption, has more
   events than there are prompt and output tokens in the trace, besides the trims pushed at the start.
   */
  lemma RunIsFinite(trace: seq<Request>, cfg: Config, n: nat, trims: nat, evs: seq<Event>, t: Sim)
    requires Usable(trace, cfg) && FitAlone(trace, cfg)
    requires SimInv(trace, cfg, Initial(cfg, n, trims)) && Runs(trace, cfg, Initial(cfg, n, trims), evs, t)
    ensures SimInv(trace, cfg, t) && |evs| <= TokenTotal(trace, |trace|) + trims
  {
    hide SimInv, Fuel, Initial, Runs;
    InitialFuel(trace, cfg, n, trims);
    RunsKeep(trace, cfg, Initial(cfg, n, trims), evs, t);
    FuelNonNegative(trace, cfg, t);
  }

  /** Nothing is left to happen. */
  ghost predicate Quiet(trace: seq<Request>, s: Sim) {
    forall ev :: !Enabled(trace, s, ev)
  }

  /** A request's record on the instance it was placed on. */
  function Record(s: Sim, r: nat): Progress
    requires r in s.placed && s.placed[r] < |s.cells| && r in s.cells[s.placed[r]].e.prog
  {
    s.cells[s.placed[r]].e.prog[r]
  }

  lemma CellDrained(trace: seq<Request>, cfg: Config, w: map<nat, int>, c: Cell)
    requires CellInv(trace, cfg, w, c) && c.flight == []
    ensures c.bs == 0 && c.queued == 0 && c.pending == multiset{}
    ensures forall r :: r in c.e.prog ==>
              c.e.prog[r].firstAt.Some? && c.e.prog[r].doneAt.Some? && c.e.prog[r].engineHit.Some?
    ensures |c.e.pool.free| == cfg.numBlocks
  {
    assert c.e.running == [] && c.e.waiting == [];
    PoolWhole(trace, cfg, c.e);
    forall r | r in c.e.prog ensures c.e.prog[r].doneAt.Some? {
      if c.e.prog[r].doneAt.None? { LiveHas(c.e.dispatched, c.e.prog, r); }
    }
    hide Owned, OwnKeys, Plans, Origin, HitsCredited;
  }

  /** With nothing running every block is free. */
  lemma PoolWhole(trace: seq<Request>, cfg: Config, s: EngineState)
    requires Defined(trace, s) && Owned(trace, cfg, s) && s.running == []
    ensures |s.pool.free| == cfg.numBlocks
  {
    assert Held(s.running, s.prog) == multiset([]);
    hide Held;
    FreeWhenAlone(s.pool, []);
    assert Distinct(s.pool.free) && Below(s.pool.free, cfg.numBlocks);
    hide Valid, Unshared;
    DistinctBound(s.pool.free, cfg.numBlocks);
  }

  /** An unfinished dispatched request is live. */
  lemma {:induction false} LiveHas(d: seq<nat>, p: map<nat, Progress>, r: nat)
    requires forall i :: 0 <= i < |d| ==> d[i] in p
    requires r in p && r in d && p[r].doneAt.None?
    ensures r in Live(d, p)
  {
    var n := |d| - 1;
    if d[n] != r {
      assert r in d[..n];
      LiveHas(d[..n], p, r);
    }
  }

  /** Every dispatched request has a record where it was placed. */
  lemma PlacedRecord(trace: seq<Request>, cfg: Config, s: Sim, k: nat)
    requires SimInv(trace, cfg, s) && k < |s.log|
    ensures var r := s.log[k];
            r < |trace| && r in s.placed && s.placed[r] < |s.cells| && r in s.cells[s.placed[r]].e.prog
            && r in s.cells[s.placed[r]].e.dispatched
  {
    hide Inv, Counts, Share, Origin, HitsCredited, Marks, Live, FitAlone;
    var i := s.placed[s.log[k]];
    ShareMembers(s.log, s.placed, i);
    assert CellInv(trace, cfg, s.tokens, s.cells[i]);
    assert Known(s.cells[i].e);
  }

  /**
   A simulation that has come to rest is complete: every request has its first token and its completion, the
   router's counters are back at zero, and every block of every pool is free again.
   */
  lemma QuietIsComplete(trace: seq<Request>, cfg: Config, s: Sim)
    requires SimInv(trace, cfg, s) && Quiet(trace, s) && |s.cells| > 0
    ensures forall r :: 0 <= r < |trace| ==>
              && r in s.log && r in s.placed && s.placed[r] < |s.cells| && r in s.cells[s.placed[r]].e.prog
              && Record(s, r).firstAt.Some? && Record(s, r).doneAt.Some? && Record(s, r).engineHit.Some?
    ensures forall i :: 0 <= i < |s.cells| ==>
              && s.cells[i].bs == 0 && s.cells[i].queued == 0 && s.cells[i].pending == multiset{}
              && |s.cells[i].e.pool.free| == cfg.numBlocks
  {
    hide CellInv, Usable, FitAlone, LogInv;
    forall i | 0 <= i < |s.cells|
      ensures s.cells[i].bs == 0 && s.cells[i].queued == 0 && s.cells[i].pending == multiset{}
              && |s.cells[i].e.pool.free| == cfg.numBlocks
              && forall r :: r in s.cells[i].e.prog ==>
                   s.cells[i].e.prog[r].firstAt.Some? && s.cells[i].e.prog[r].doneAt.Some? && s.cells[i].e.prog[r].engineHit.Some?
    {
      assert !Enabled(trace, s, StepEnd(i, 0));
      CellDrained(trace, cfg, s.tokens, s.cells[i]);
    }
    forall r | 0 <= r < |trace|
      ensures r in s.log && r in s.placed && s.placed[r] < |s.cells| && r in s.cells[s.placed[r]].e.prog
    {
      assert !Enabled(trace, s, Arrive(r, 0, 0));
      var k :| 0 <= k < |s.log| && s.log[k] == r;
      PlacedRecord(trace, cfg, s, k);
    }
  }

  // ---------------------------------------------------------------------------------------
  // Order

  /**
   On every instance, at every point of every run: the queues hold the unfinished requests in dispatch order, and first
   admissions and first tokens happen in dispatch order.
   */
  lemma InDispatchOrder(trace: seq<Request>, cfg: Config, s: Sim, i: nat)
    requires SimInv(trace, cfg, s) && i < |s.cells|
    ensures var e := s.cells[i].e;
            && (forall k :: 0 <= k < |e.dispatched| ==> e.dispatched[k] in e.prog)
            && Order(e) == Live(e.dispatched, e.prog)
            && e.admitted <= e.dispatched && e.firsts <= e.dispatched
            && (forall r :: r in e.prog ==> (r in e.firsts <==> e.prog[r].firstAt.Some?))
            && e.dispatched == Share(s.log, s.placed, i)
  {
    hide Inv, Counts, Origin, HitsCredited, Live, Share, Usable, FitAlone;
    CellOf(trace, cfg, s, i);
  }

  // ---------------------------------------------------------------------------------------
  // Hits against the infinite cache

  /** Requests before a member of a share are before it in the log. */
  lemma {:induction false} ShareBefore(log: seq<nat>, placed: map<nat, nat>, i: nat, j: nat, k: nat)
    requires Distinct(log) && j < |Share(log, placed, i)| && k < |log| && Share(log, placed, i)[j] == log[k]
    ensures forall m :: 0 <= m < j ==> Share(log, placed, i)[m] in log[..k]
  {
    var n := |log| - 1;
    var rest := Share(log[..n], placed, i);
    forall m | 0 <= m < |rest| ensures rest[m] in log[..n] { ShareMembers(log[..n], placed, i); }
    if j < |rest| {
      PlaceBefore(log, rest[j], k);
      ShareBefore(log[..n], placed, i, j, k);
      hide Share;
      assert log[..n][..k] == log[..k];
    } else {
      hide Share;
      LastShare(log, placed, i, j);
      assert k == n;
    }
  }

  lemma PlaceBefore(log: seq<nat>, x: nat, k: nat)
    requires Distinct(log) && k < |log| && log[k] == x && x in log[..|log| - 1]
    ensures k < |log| - 1
  {}

  lemma LastShare(log: seq<nat>, placed: map<nat, nat>, i: nat, j: nat)
    requires log != [] && |Share(log[..|log| - 1], placed, i)| <= j < |Share(log, placed, i)|
    ensures Share(log, placed, i)[j] == log[|log| - 1] && j == |Share(log[..|log| - 1], placed, i)|
    ensures Share(log, placed, i)[..j] == Share(log[..|log| - 1], placed, i)
  {}

  /**
   Whatever the policy and the capacities, the prefix hit an engine records for a request is at most what one
   infinite cache shared by all instances would credit it over the requests dispatched earlier.
   */
  lemma HitWithinIdeal(trace: seq<Request>, cfg: Config, s: Sim, k: nat)
    requires SimInv(trace, cfg, s) && k < |s.log|
    ensures var r := s.log[k];
            && r < |trace| && r in s.placed && s.placed[r] < |s.cells| && r in s.cells[s.placed[r]].e.prog
            && (Record(s, r).engineHit.Some? ==> Record(s, r).engineHit.value <= Credit(trace, s.log[..k], r))
  {
    hide SimInv, CellInv, Credit, Share, Distinct;
    PlacedRecord(trace, cfg, s, k);
    var r := s.log[k];
    var i := s.placed[r];
    var d := s.cells[i].e.dispatched;
    CellOf(trace, cfg, s, i);
    var j :| 0 <= j < |d| && d[j] == r;
    CellHit(trace, cfg, s.tokens, s.cells[i], j);
    ShareBefore(s.log, s.placed, i, j, k);
    assert forall m :: 0 <= m < j ==> d[..j][m] in s.log[..k];
    CreditMonotone(trace, d[..j], s.log[..k], r);
  }

  lemma CellOf(trace: seq<Request>, cfg: Config, s: Sim, i: nat)
    requires SimInv(trace, cfg, s) && i < |s.cells|
    ensures CellInv(trace, cfg, s.tokens, s.cells[i]) && Distinct(s.log)
    ensures s.cells[i].e.dispatched == Share(s.log, s.placed, i)
  {
    hide CellInv, Share, Distinct;
  }

  lemma CellHit(trace: seq<Request>, cfg: Config, w: map<nat, int>, c: Cell, j: nat)
    requires CellInv(trace, cfg, w, c) && j < |c.e.dispatched|
    ensures var r := c.e.dispatched[j];
            && r in c.e.prog && r < |trace|
            && (c.e.prog[r].engineHit.Some? ==> c.e.prog[r].engineHit.value <= Credit(trace, c.e.dispatched[..j], r))
  {
    hide Inv, Counts, Origin, History, Credit, Usable;
  }

  /** 0, 1, ..., n-1: dispatch in trace order. */
  function UpTo(n: nat): seq<nat> {
    seq(n, i requires 0 <= i < n => i)
  }

  /** Tokens credited by the infinite cache over the first `n` requests of the trace. */
  ghost function IdealSum(trace: seq<Request>, n: nat): int
    requires n <= |trace|
  {
    if n == 0 then 0 else IdealSum(trace, n - 1) + Credit(trace, UpTo(n - 1), n - 1)
  }

  /** Tokens the engines have found cached at the first admission of the first `n` dispatched requests. */
  ghost function HitSum(s: Sim, n: nat): int
    requires n <= |s.log|
    requires forall k :: 0 <= k < n ==>
               s.log[k] in s.placed && s.placed[s.log[k]] < |s.cells| && s.log[k] in s.cells[s.placed[s.log[k]]].e.prog
  {
    if n == 0 then 0
    else HitSum(s, n - 1) + (match Record(s, s.log[n - 1]).engineHit case Some(h) => h case None => 0)
  }

  lemma CreditNonNegative(trace: seq<Request>, before: seq<nat>, r: nat)
    requires r < |trace| && trace[r].inputLen >= 1
    ensures Credit(trace, before, r) >= 0
  {
    hide Lead;
  }

  /** The run's total hit never exceeds the ideal total it is compared with. */
  lemma {:induction false} HitsWithinIdeal(trace: seq<Request>, cfg: Config, s: Sim, n: nat)
    requires SimInv(trace, cfg, s) && n <= |s.log| && s.log == UpTo(|s.log|) && |s.log| <= |trace|
    requires forall r :: 0 <= r < |trace| ==> trace[r].inputLen >= 1
    ensures forall k :: 0 <= k < n ==>
              s.log[k] in s.placed && s.placed[s.log[k]] < |s.cells| && s.log[k] in s.cells[s.placed[s.log[k]]].e.prog
    ensures HitSum(s, n) <= IdealSum(trace, n)
    decreases n
  {
    hide SimInv, Lead, Credit, Usable;
    if n > 0 {
      CreditNonNegative(trace, UpTo(n - 1), n - 1);
      HitsWithinIdeal(trace, cfg, s, n - 1);
      HitWithinIdeal(trace, cfg, s, n - 1);
      assert s.log[..n - 1] == UpTo(n - 1);
    }
  }
}
